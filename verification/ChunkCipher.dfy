// The framing of encrypted chunks in internal/service/chunk_crypto.go, over an
// ideal authenticated cipher: a key opens exactly what was sealed under it with
// the same nonce and associated data, and no two sealings give the same text.
module ChunkCipher {
  import opened Prelude
  import opened ChunkLayout

  const MAGIC: Bytes := [0x50, 0x54, 0x52, 0x43, 0x31]
  const NONCE_SIZE := 12
  const FILE_ID_SIZE := 16
  const OVERHEAD := 16   // the authentication tag

  /******* The ideal cipher *******/

  datatype Sealing = Sealing(secret: string, nonce: Bytes, text: Bytes, aad: Bytes)

  // What has been sealed so far.
  type Vault = map<Sealing, Bytes>

  function Open(vault: Vault, secret: string, nonce: Bytes, text: Bytes, aad: Bytes): Option<Bytes> {
    var s := Sealing(secret, nonce, text, aad);
    if s in vault then Some(vault[s]) else None
  }

  // A sealed text is longer than what it seals.
  ghost predicate Tagged(vault: Vault) {
    forall s | s in vault :: |s.text| == |vault[s]| + OVERHEAD
  }

  ghost predicate FreshText(vault: Vault, nonce: Bytes, text: Bytes) {
    forall s | s in vault :: !(s.nonce == nonce && s.text == text)
  }

  /******* Framing *******/

  // The first byte of a two-byte big-endian uint16(position), and the second.
  function High(position: int): byte { position / 256 % 256 }

  function Low(position: int): byte { position % 256 }

  function Aad(fileId: Bytes, position: int): Bytes {
    fileId + [High(position), Low(position)]
  }

  predicate IsInt16(position: int) {
    -32768 <= position < 32768
  }

  // Different chunks have different associated data.
  lemma AadInjective(fileId: Bytes, position: int, otherId: Bytes, other: int)
    requires |fileId| == |otherId| == FILE_ID_SIZE && IsInt16(position) && IsInt16(other)
    requires Aad(fileId, position) == Aad(otherId, other)
    ensures fileId == otherId && position == other
  {
    var a := Aad(fileId, position);
    assert a[..FILE_ID_SIZE] == fileId && a[..FILE_ID_SIZE] == otherId;
    assert a[FILE_ID_SIZE] == High(position) == High(other);
    assert a[FILE_ID_SIZE + 1] == Low(position) == Low(other);
  }

  function Framed(nonce: Bytes, text: Bytes): Bytes {
    MAGIC + nonce + text
  }

  datatype Cipher = Cipher(secret: string, legacy: Option<string>)

  function NewChunkCipherWithFallback(secret: string, legacySecret: string): Cipher {
    Cipher(secret, if legacySecret != "" && legacySecret != secret then Some(legacySecret) else None)
  }

  function DecryptChunk(c: Cipher, vault: Vault, fileId: Bytes, position: int, payload: Bytes): Option<Bytes> {
    if !(MAGIC <= payload) then Some(payload)
    else if |payload| < |MAGIC| + NONCE_SIZE then None
    else
      var nonce := payload[|MAGIC|..|MAGIC| + NONCE_SIZE];
      var text := payload[|MAGIC| + NONCE_SIZE..];
      var plain := Open(vault, c.secret, nonce, text, Aad(fileId, position));
      if plain.None? && c.legacy.Some? then Open(vault, c.legacy.value, nonce, text, Aad(fileId, position)) else plain
  }

  // Seals into an empty buffer; nonce and text are what the generator and the
  // cipher come up with.
  method EncryptChunk(c: Cipher, vault: Vault, fileId: Bytes, position: int, plain: Bytes, nonce: Bytes, text: Bytes)
    returns (out: Bytes, after: Vault)
    requires |nonce| == NONCE_SIZE && FreshText(vault, nonce, text) && |text| == |plain| + OVERHEAD
    ensures out == Framed(nonce, text)
    ensures Tagged(vault) ==> Tagged(after)
    ensures after == vault[Sealing(c.secret, nonce, text, Aad(fileId, position)) := plain]
  {
    out := [];
    out := out + MAGIC;
    out := out + nonce;
    out := out + text;
    after := vault[Sealing(c.secret, nonce, text, Aad(fileId, position)) := plain];
  }

  lemma FrameParts(nonce: Bytes, text: Bytes)
    requires |nonce| == NONCE_SIZE
    ensures var p := Framed(nonce, text);
      && MAGIC <= p && |p| >= |MAGIC| + NONCE_SIZE
      && p[|MAGIC|..|MAGIC| + NONCE_SIZE] == nonce && p[|MAGIC| + NONCE_SIZE..] == text
  {
  }

  // An encrypted chunk decrypts exactly with the secret that sealed it, as the
  // cipher's own or as its non-empty fallback; under other secrets it is refused.
  lemma EncryptThenDecrypt(c: Cipher, secret: string, legacySecret: string, vault: Vault, fileId: Bytes,
                           position: int, plain: Bytes, nonce: Bytes, text: Bytes)
    requires |nonce| == NONCE_SIZE && FreshText(vault, nonce, text)
    ensures var after := vault[Sealing(c.secret, nonce, text, Aad(fileId, position)) := plain];
      var d := NewChunkCipherWithFallback(secret, legacySecret);
      var opens := c.secret == secret || (legacySecret != "" && c.secret == legacySecret);
      DecryptChunk(d, after, fileId, position, Framed(nonce, text)) == if opens then Some(plain) else None
  {
    FrameParts(nonce, text);
  }

  // A payload under the magic decrypts only for the file and position it was
  // sealed for: moved elsewhere, it is refused.
  lemma MovedChunkIsRefused(c: Cipher, d: Cipher, vault: Vault, fileId: Bytes, position: int, plain: Bytes,
                            nonce: Bytes, text: Bytes, otherId: Bytes, other: int)
    requires |nonce| == NONCE_SIZE && FreshText(vault, nonce, text)
    requires |fileId| == |otherId| == FILE_ID_SIZE && IsInt16(position) && IsInt16(other)
    requires (fileId, position) != (otherId, other)
    ensures var after := vault[Sealing(c.secret, nonce, text, Aad(fileId, position)) := plain];
      DecryptChunk(d, after, otherId, other, Framed(nonce, text)) == None
  {
    FrameParts(nonce, text);
    if Aad(fileId, position) == Aad(otherId, other) {
      AadInjective(fileId, position, otherId, other);
    }
  }

  // Chunks stored in plaintext before encryption come back unchanged exactly
  // when they do not start with the magic.
  lemma PlaintextPasses(c: Cipher, vault: Vault, fileId: Bytes, position: int, plain: Bytes)
    requires Tagged(vault)
    ensures DecryptChunk(c, vault, fileId, position, plain) == Some(plain) <==> !(MAGIC <= plain)
  {
    if MAGIC <= plain && |plain| >= |MAGIC| + NONCE_SIZE {
      var nonce, text := plain[|MAGIC|..|MAGIC| + NONCE_SIZE], plain[|MAGIC| + NONCE_SIZE..];
      assert |text| < |plain|;
    }
  }
}
