/** The few java.lang facts the other modules share: the int range and ASCII decimal digits. */
module JavaLang {

  /** Integer.MIN_VALUE and Integer.MAX_VALUE. */
  const INT_MIN: int := -0x8000_0000
  const INT_MAX: int := 0x7FFF_FFFF

  /** An ASCII decimal digit. */
  predicate IsDigit(c: char) { '0' <= c <= '9' }
}
