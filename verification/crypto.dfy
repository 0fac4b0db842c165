/** Password hashing (bcrypt in the system): the services only ever hash a
    password and compare a password against a stored hash. */
module Crypto {

  /** The two library calls, as functions the caller supplies. */
  datatype Hasher = Hasher(hash: string -> string, compare: (string, string) -> bool)

  /** The one property the services rely on: a password matches its own hash. */
  ghost predicate Sound(h: Hasher) {
    forall p :: h.compare(p, h.hash(p))
  }
}
