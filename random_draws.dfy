/**
 * Math.random() is taken out of the model: every draw it would make is
 * passed in by the caller as a real number in [0, 1).
 */
module RandomDraws {

  predicate IsRoll(roll: real)
  {
    0.0 <= roll < 1.0
  }

  /**
   * Math.floor(Math.random() * n): the index below n whose unit interval
   * contains roll * n.
   */
  function PickIndex(roll: real, n: nat): (j: int)
    requires IsRoll(roll) && n > 0
    ensures 0 <= j < n
    ensures j as real <= roll * n as real < j as real + 1.0
  {
    var x := roll * n as real;
    assert 0.0 <= x < n as real by {
      assert roll * n as real < 1.0 * n as real;
    }
    x.Floor
  }
}
