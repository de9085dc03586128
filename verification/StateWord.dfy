/** The state word of a session and its flags (session.go). */
module StateWord {

  type Bit = i: int | 0 <= i < 32

  /** A 32-bit word, as the set of its one bits; bitwise or is the union. */
  type Word = set<Bit>

  const SECURE: Bit := 0
  const AUTHENTICATED: Bit := 1
  const BOUND: Bit := 2
  const READY: Bit := 3
  const SERVER: Bit := 4
}
