/** The decorative sparkles of the home page: twenty sparkles, each placed and
    timed from its index alone, with no randomness, so that server and browser
    render the same page. */
module Sparkles {

  const SparkleCount: nat := 20

  /** One sparkle's style: `top` and `left` in percent, `delay` and `duration` in seconds. */
  datatype Sparkle = Sparkle(top: int, left: int, delay: real, duration: real)

  /** `(i * 0.3) % 5`, computed exactly: in tenths of a second it is the
      integer `(3 * i) % 50`. The result is the remainder of 0.3i after whole
      multiples of 5 are taken away. */
  function Delay(i: nat): (d: real)
    ensures 0.0 <= d < 5.0
    ensures d + 5.0 * ((3 * i) / 50) as real == i as real * 0.3
  {
    ((3 * i) % 50) as real / 10.0
  }

  /** `3 + ((i * 0.5) % 4)`, computed exactly: `(i * 0.5) % 4` is half of `i % 8`. */
  function Duration(i: nat): (d: real)
    ensures 3.0 <= d < 7.0
    ensures (d - 3.0) + 4.0 * (i / 8) as real == i as real * 0.5
  {
    3.0 + (i % 8) as real / 2.0
  }

  /** The sparkle for index i of `[...Array(20)].map((_, i) => ...)`. */
  function SparkleAt(i: nat): (s: Sparkle)
    ensures 0 <= s.top < 100 && 0 <= s.left < 100
    ensures 0.0 <= s.delay < 5.0
    ensures 3.0 <= s.duration < 7.0
  {
    Sparkle((i * 37) % 100, (i * 53) % 100, Delay(i), Duration(i))
  }

  /** All sparkles of the page, in index order. */
  function AllSparkles(): (r: seq<Sparkle>)
    ensures |r| == SparkleCount
    ensures forall i :: 0 <= i < |r| ==> r[i] == SparkleAt(i)
  {
    seq(SparkleCount, i requires 0 <= i => SparkleAt(i))
  }

  /** Every sparkle of the page lies inside the container: both offsets are in [0, 100) percent. */
  lemma SparklesInsideContainer(i: nat)
    requires i < SparkleCount
    ensures 0 <= AllSparkles()[i].top < 100
    ensures 0 <= AllSparkles()[i].left < 100
  {
  }

  /** The position of a sparkle differs from the next one's by a fixed step
      modulo 100: 37 percent down and 53 percent right. */
  lemma {:induction false} SparkleStep(i: nat)
    ensures SparkleAt(i + 1).top == (SparkleAt(i).top + 37) % 100
    ensures SparkleAt(i + 1).left == (SparkleAt(i).left + 53) % 100
  {
    ModAddStep(i * 37, 37);
    ModAddStep(i * 53, 53);
  }

  lemma ModAddStep(a: nat, b: nat)
    ensures (a + b) % 100 == (a % 100 + b) % 100
  {
  }

  /** No two of the twenty sparkles share a row, and no two share a column. */
  lemma {:induction false} SparklesDistinct(i: nat, j: nat)
    requires i < j < SparkleCount
    ensures SparkleAt(i).top != SparkleAt(j).top
    ensures SparkleAt(i).left != SparkleAt(j).left
  {
    var d := j - i;
    assert 0 < d < 20;
    if SparkleAt(i).top == SparkleAt(j).top {
      ModDiff(i * 37, j * 37);
      assert (d * 37) % 100 == 0;
      NotMultiple(d, 37);
    }
    if SparkleAt(i).left == SparkleAt(j).left {
      ModDiff(i * 53, j * 53);
      assert (d * 53) % 100 == 0;
      NotMultiple(d, 53);
    }
  }

  lemma ModDiff(a: nat, b: nat)
    requires a <= b && a % 100 == b % 100
    ensures (b - a) % 100 == 0
  {
  }

  lemma NotMultiple(d: nat, c: nat)
    requires 0 < d < 20 && (c == 37 || c == 53)
    ensures (d * c) % 100 != 0
  {
  }
}
