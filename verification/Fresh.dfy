/** Choosing a number nobody has used. */
module Fresh {

  /** A number above all of a set. */
  method Above(numbers: set<nat>) returns (n: nat)
    ensures n !in numbers && forall k | k in numbers :: k < n
  {
    n := 0;
    var rest := numbers;
    while rest != {}
      invariant rest <= numbers && forall k | k in numbers :: k in rest || k < n
      decreases rest
    {
      var k :| k in rest;
      rest := rest - {k};
      if n <= k { n := k + 1; }
    }
  }
}
