/** The example module: integer addition and the sum of a sequence of integers. */
module Example {

  /** `add(a, b)`: Python integers are unbounded, like Dafny's `int`. */
  function Add(a: int, b: int): (r: int)
    ensures r - a == b && r - b == a
  {
    a + b
  }

  /** `sum_all(values)`: the builtin `sum`, which starts from 0 and adds the values
      left to right. */
  function SumAll(values: seq<int>): int
  {
    if values == [] then 0 else SumAll(values[..|values| - 1]) + values[|values| - 1]
  }

  /** Summing a concatenation sums the parts, so the result does not depend on how the
      values are grouped. */
  lemma {:induction false} SumAllAppend(a: seq<int>, b: seq<int>)
    ensures SumAll(a + b) == Add(SumAll(a), SumAll(b))
    decreases |b|
  {
    if b == [] {
      assert a + b == a;
    } else {
      var c := b[..|b| - 1];
      assert (a + b)[..|a + b| - 1] == a + c;
      SumAllAppend(a, c);
    }
  }

  /** Each value contributes once: the sum of one value is that value, and the sum of
      two values is their `add`. */
  lemma SumAllSmall(x: int, y: int)
    ensures SumAll([]) == 0
    ensures SumAll([x]) == x
    ensures SumAll([x, y]) == Add(x, y)
  {
    assert [x, y][..1] == [x];
  }

  /** The cases exercised by the project's tests: `add(2, 3) == 5` and
      `sum_all([1, 2, 3]) == 6`. */
  lemma TestedValues()
    ensures Add(2, 3) == 5
    ensures SumAll([1, 2, 3]) == 6
  {
    assert [1, 2, 3][..2] == [1, 2];
    assert [1, 2][..1] == [1];
  }
}
