/**
 * The password hash. The application calls bcrypt's `hashpw(password, gensalt())`
 * and `checkpw(password, stored)`; here the salt is a parameter (it comes from a
 * random source) and a digest is a mathematical value that remembers the salt and
 * the secret it was made from. All the rest of the model relies on is the contract
 * of Hash: a digest checks against exactly the password it was made from.
 */
module Hashing {
  datatype Digest = Digest(salt: nat, secret: string)

  /** bcrypt.checkpw: does `password` match the stored digest? */
  predicate Check(password: string, h: Digest)
  {
    h.secret == password
  }

  /** bcrypt.hashpw with an explicit salt. */
  function Hash(password: string, salt: nat): (h: Digest)
    ensures Check(password, h)
    ensures forall other: string :: Check(other, h) <==> other == password
  {
    Digest(salt, password)
  }
}
