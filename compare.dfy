/** The timing-safe string equality test used to check webhook signatures. */
module Compare {
  import opened Bitwise

  /** Python's `ord` on one character of a string. */
  function Ord(c: char): nat
  {
    c as int
  }

  /**
   * The accumulator after `n` iterations: the length difference, or-ed with
   * the difference of each character of `actual` and the character of
   * `expected` at the same position taken modulo its length.
   */
  function Accumulated(actual: string, expected: string, n: nat): nat
    requires |expected| > 0 && n <= |actual|
  {
    if n == 0 then Xor(|actual|, |expected|)
    else Or(Accumulated(actual, expected, n - 1),
            Xor(Ord(actual[n - 1]), Ord(expected[(n - 1) % |expected|])))
  }

  /** The accumulator is zero exactly when the lengths agree and the first `n` characters match. */
  lemma {:induction false} AccumulatedZero(actual: string, expected: string, n: nat)
    requires |expected| > 0 && n <= |actual|
    ensures Accumulated(actual, expected, n) == 0 <==>
      |actual| == |expected| && forall k :: 0 <= k < n ==> actual[k] == expected[k]
  {
    if n > 0 {
      AccumulatedZero(actual, expected, n - 1);
      var prev := Accumulated(actual, expected, n - 1);
      var j := (n - 1) % |expected|;
      var diff := Xor(Ord(actual[n - 1]), Ord(expected[j]));
      assert Accumulated(actual, expected, n) == Or(prev, diff);
      assert diff == 0 <==> actual[n - 1] == expected[j];
      if |actual| == |expected| {
        ModBelow(n - 1, |expected|);
      }
    }
  }

  /** A position below the length is its own remainder. */
  lemma ModBelow(i: nat, m: nat)
    requires i < m
    ensures i % m == i
  {
  }

  /**
   * Folds the length difference and every character difference into one
   * accumulator with `|`, and answers whether it stayed zero.
   *
   * `probes` is the sequence of positions of `expected` that the loop reads,
   * one per iteration: it is determined by the two lengths alone, whatever
   * the contents and wherever the first mismatch is.
   */
  method ConstantTimeCompare(actual: string, expected: string) returns (equal: bool, ghost probes: seq<nat>)
    ensures equal <==> actual == expected
    ensures |probes| == if |expected| > 0 then |actual| else 0
    ensures forall k :: 0 <= k < |probes| ==> probes[k] == k % |expected| < |expected|
  {
    var actualLen := |actual|;
    var expectedLen := |expected|;
    var result := Xor(actualLen, expectedLen);
    probes := [];
    if expectedLen > 0 {
      for i := 0 to actualLen
        invariant result == Accumulated(actual, expected, i)
        invariant |probes| == i
        invariant forall k :: 0 <= k < i ==> probes[k] == k % expectedLen
      {
        var j := i % expectedLen;
        result := Or(result, Xor(Ord(actual[i]), Ord(expected[j])));
        probes := probes + [j];
      }
      AccumulatedZero(actual, expected, actualLen);
    }
    equal := result == 0;
  }
}
