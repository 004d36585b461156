/** The password-hashing and token libraries the auth code calls, seen only through the
    laws the routes rely on. */
module Crypto {
  import opened Common
  import opened Text

  /** Every bcrypt hash is a 60-character ASCII string, whatever the password. */
  const BCRYPT_HASH_LENGTH := 60

  datatype Crypto = Crypto(
    /** `bcrypt.hash(password, salt)` */
    hash: (string, string) -> string,
    /** `bcrypt.compare(password, hashed)` */
    compare: (string, string) -> bool,
    /** `jwt.sign({ user: { id } }, secret)` */
    sign: string -> string,
    /** `jwt.verify(token, secret).user.id`; `None` where `verify` throws */
    verify: string -> Option<string>)

  /** The laws: a password matches its own hash, a hash is never the plaintext and always
      has bcrypt's fixed length, a signed token is never empty and verifies to the id it
      was signed for. */
  ghost predicate Lawful(c: Crypto) {
    && (forall p, salt :: c.compare(p, c.hash(p, salt)))
    && (forall p, salt :: c.hash(p, salt) != p)
    && (forall p, salt :: JsLength(c.hash(p, salt)) == BCRYPT_HASH_LENGTH)
    && (forall id :: c.sign(id) != "")
    && (forall id :: c.verify(c.sign(id)) == Some(id))
  }
}
