/**
 * The random number generator's rolls. A floating-point roll in a range is
 * modelled by the fraction of the way across the range that the generator
 * picked (any value in [0, 1]); an integer roll by the raw number drawn,
 * folded into the range. Which fractions and numbers come out is an input of
 * every model that rolls.
 */
module Rng {

  type Fraction = t: real | 0.0 <= t <= 1.0

  /** RollRandomFloatInRange(lo, hi) when the generator picked fraction t. */
  function RollInRange(lo: real, hi: real, t: Fraction): (r: real)
    ensures lo <= hi ==> lo <= r <= hi
    ensures t == 0.0 ==> r == lo
    ensures t == 1.0 ==> r == hi
  {
    var span := hi - lo;
    assert lo <= hi ==> t * span <= 1.0 * span && 0.0 * span <= t * span;
    lo + t * span
  }

  /** RollRandomIntInRange(lo, hi), both ends included, for the raw draw n. */
  function RollIntInRange(lo: int, hi: int, n: nat): (r: int)
    requires lo <= hi
    ensures lo <= r <= hi
    ensures n < hi - lo + 1 ==> r == lo + n
  {
    lo + n % (hi - lo + 1)
  }
}
