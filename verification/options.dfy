/** The absent-or-present value used wherever the front end works with
    `undefined`: a missing route parameter, a failed `find`, absent user data. */
module Options {

  datatype Option<+T> = None | Some(value: T)

  /** The smaller of two naturals; the length `slice(0, n)` keeps. */
  function Min(a: nat, b: nat): (m: nat)
    ensures m <= a && m <= b
    ensures m == a || m == b
  {
    if a <= b then a else b
  }
}
