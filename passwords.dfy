/** The stand-in password helpers of the backend (`hashPassword`, `checkPassword`):
    the "hash" is the password behind a fixed prefix. */
module Passwords {

  const HashPrefix: string := "HASH_"

  function HashPassword(password: string): (h: string)
    ensures |h| == |HashPrefix| + |password|
    ensures h[..|HashPrefix|] == HashPrefix && h[|HashPrefix|..] == password
  {
    HashPrefix + password
  }

  function CheckPassword(provided: string, stored: string): bool {
    stored == HashPrefix + provided
  }

  /** A stored hash accepts exactly the password it was made from. */
  lemma CheckAcceptsOnlyTheHashedPassword(provided: string, password: string)
    ensures CheckPassword(provided, HashPassword(password)) <==> provided == password
  {
    if CheckPassword(provided, HashPassword(password)) {
      assert HashPassword(password)[|HashPrefix|..] == password;
      assert (HashPrefix + provided)[|HashPrefix|..] == provided;
    }
  }
}
