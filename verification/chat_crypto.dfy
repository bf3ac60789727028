// Sealing and opening a chat envelope, with ideal primitives (src/crypto/chat.rs).
module ChatCrypto {
  import opened Wrappers
  import opened RoomTypes

  function Seal(key: EpochKey, signer: PublicKey, context: Context, plaintext: Plaintext): Sealed {
    Sealed(signer, context, key, context, plaintext)
  }

  // The signature is verified over the transcript of the expected context first, then the
  // ciphertext is authenticated against the same context.
  function Open(key: EpochKey, sender: PublicKey, context: Context, sealed: Sealed): Result<Plaintext, ChatError> {
    if sealed.signer != sender || sealed.signed != context then Err(InvalidSignature)
    else if sealed.key != key || sealed.bound != context then Err(InvalidCiphertext)
    else Ok(sealed.plaintext)
  }

  // An envelope opens to exactly what was sealed in it, by that sender in that context.
  lemma OpensExactly(key: EpochKey, sender: PublicKey, context: Context, sealed: Sealed, p: Plaintext)
    ensures Open(key, sender, context, sealed) == Ok(p) <==> sealed == Seal(key, sender, context, p)
  {
  }
}
