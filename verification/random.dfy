/** `Math.floor(Math.random() * n)`: the random draw is a parameter `roll` in [0, 1). */
module Randomness {
  /** Every roll in the sequence is a possible value of `Math.random()`. */
  predicate ValidRolls(rolls: seq<real>, n: nat) {
    |rolls| == n && forall i :: 0 <= i < |rolls| ==> 0.0 <= rolls[i] < 1.0
  }

  /** The index `Math.floor(roll * n)` picks: the unique `i` with `i <= roll * n < i + 1`,
      always a valid index into an array of length `n`. */
  function RandomIndex(roll: real, n: nat): (i: nat)
    requires 0.0 <= roll < 1.0 && n > 0
    ensures i < n
    ensures i as real <= roll * n as real < (i + 1) as real
  {
    var x := roll * n as real;
    assert 0.0 <= x < n as real;
    x.Floor
  }
}
