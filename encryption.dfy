/**
 * Field-level encryption of stored text. The cipher (AES keyed by the caller's session id) is left
 * uninterpreted: a pair of functions of the key, where decryption may throw (`None`). The guard in
 * front of it, which refuses a missing or empty session id, is modelled.
 */
module Encryption {
  import opened Wrappers

  /** `encrypt(key, plaintext)` and `decrypt(key, ciphertext)`; `decrypt` yields `None` where it throws. */
  datatype Cipher = Cipher(encrypt: (string, string) -> string, decrypt: (string, string) -> Option<string>)

  const NoSessionError: string := "No session found"
  /** The model's own label for the cipher throwing (malformed data under `toString(Utf8)`); the source
      has no message of its own for it, and the getter never shows it. */
  const DecryptionError: string := "Decryption failed"

  /** `getKey`'s guard: the session id must be present and non-empty (`!sessionId` throws). */
  predicate HasSession(session: Option<string>) {
    session.Some? && session.value != ""
  }

  /** `encryptField`: the key is the session id; without a usable session the call throws. */
  function EncryptField(c: Cipher, session: Option<string>, plain: string): (r: Result<string, string>)
    ensures r.Failure? <==> session.None? || session.value == ""
    ensures r.Failure? ==> r.error == NoSessionError
    ensures r.Success? && RoundTrips(c, session.value, plain) ==> c.decrypt(session.value, r.value) == Some(plain)
  {
    if !HasSession(session) then Failure(NoSessionError)
    else Success(c.encrypt(session.value, plain))
  }

  /** `decryptField`: throws without a usable session, or when the cipher itself throws. */
  function DecryptField(c: Cipher, session: Option<string>, stored: string): (r: Result<string, string>)
    ensures session.None? || session.value == "" ==> r == Failure(NoSessionError)
    ensures session.Some? && session.value != "" ==> (r.Success? <==> c.decrypt(session.value, stored).Some?)
    ensures r.Success? ==> c.decrypt(session.value, stored) == Some(r.value)
  {
    if !HasSession(session) then Failure(NoSessionError)
    else
      match c.decrypt(session.value, stored)
      case None => Failure(DecryptionError)
      case Some(plain) => Success(plain)
  }

  /** The cipher gives `plain` back under the key it was encrypted with. */
  predicate RoundTrips(c: Cipher, key: string, plain: string) {
    c.decrypt(key, c.encrypt(key, plain)) == Some(plain)
  }

  /** The schema getter of an encrypted path: the decryption, or the stored value unchanged when
      decryption throws. It never throws itself. */
  function ReadField(c: Cipher, session: Option<string>, stored: string): (r: string)
    ensures DecryptField(c, session, stored).Failure? ==> r == stored
    ensures DecryptField(c, session, stored).Success? ==> r == DecryptField(c, session, stored).value
  {
    match DecryptField(c, session, stored)
    case Failure(_) => stored
    case Success(plain) => plain
  }

  /** A value written under a session reads back as itself under the same session. */
  lemma WriteThenRead(c: Cipher, key: string, plain: string)
    requires key != ""
    requires RoundTrips(c, key, plain)
    ensures EncryptField(c, Some(key), plain).Success?
    ensures ReadField(c, Some(key), EncryptField(c, Some(key), plain).value) == plain
  {
  }

  /** Without a session, or with an empty session id, every stored value reads back as the raw ciphertext. */
  lemma ReadWithoutSession(c: Cipher, stored: string)
    ensures ReadField(c, None, stored) == stored
    ensures ReadField(c, Some(""), stored) == stored
  {
  }
}
