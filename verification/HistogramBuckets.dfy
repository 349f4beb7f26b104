/** The log-linear buckets: they tile 0..2^32-1, and none is wider than 1/1024 of its smallest value. */
module HistogramBuckets {

  const EXACT_LIMIT := 2048
  const SUB_BUCKETS := 1024
  const MAX_VALUE := 0xFFFFFFFF
  const BUCKET_COUNT := EXACT_LIMIT + 21 * SUB_BUCKETS

  function Pow2(n: nat): (p: nat)
    ensures p > 0
  {
    if n == 0 then 1 else 2 * Pow2(n - 1)
  }

  /** Position of the highest bit: 31 - clz32(v). */
  function Log2(v: nat): (e: nat)
    requires v > 0
    ensures Pow2(e) <= v < Pow2(e + 1)
  {
    if v == 1 then 0 else 1 + Log2(v / 2)
  }

  function Exponent(index: nat): nat {
    if index < EXACT_LIMIT then 0 else (index - EXACT_LIMIT) / SUB_BUCKETS + 1
  }

  function Mantissa(index: nat): nat {
    if index < EXACT_LIMIT then index else SUB_BUCKETS + (index - EXACT_LIMIT) % SUB_BUCKETS
  }

  function Lower(index: nat): nat {
    Mantissa(index) * Pow2(Exponent(index))
  }

  function Upper(index: nat): (last: nat)
    ensures last == (Mantissa(index) + 1) * Pow2(Exponent(index)) - 1
  {
    Lower(index) + (Pow2(Exponent(index)) - 1)
  }

  lemma {:induction false} Pow2Monotone(a: nat, b: nat)
    requires a <= b
    ensures Pow2(a) <= Pow2(b)
    decreases b
  {
    if a < b {
      Pow2Monotone(a, b - 1);
    }
  }

  lemma {:induction false} Pow2Sum(a: nat, b: nat)
    ensures Pow2(a + b) == Pow2(a) * Pow2(b)
    decreases b
  {
    if b > 0 {
      Pow2Sum(a, b - 1);
    }
  }

  lemma TenBits()
    ensures Pow2(10) == 1024 && Pow2(11) == 2048 && Pow2(32) == MAX_VALUE + 1
  {
    assert Pow2(5) == 32;
    Pow2Sum(5, 5);
    Pow2Sum(10, 10);
    Pow2Sum(20, 10);
    assert Pow2(32) == 4 * Pow2(30);
  }

  /** Above the exact range: the exponent is between 1 and 21, and the top eleven bits are the mantissa. */
  lemma TopBits(value: nat)
    requires EXACT_LIMIT <= value <= MAX_VALUE
    ensures 11 <= Log2(value) <= 31
    ensures SUB_BUCKETS <= value / Pow2(Log2(value) - 10) < 2 * SUB_BUCKETS
  {
    TenBits();
    var top := Log2(value);
    if top < 11 {
      Pow2Monotone(top + 1, 11);
    }
    if top > 31 {
      Pow2Monotone(32, top);
    }
    var width := Pow2(top - 10);
    Pow2Sum(top - 10, 10);
    Pow2Sum(top - 10, 11);
    Quotient(value, width, SUB_BUCKETS, 2 * SUB_BUCKETS);
  }

  lemma Quotient(value: nat, width: nat, low: nat, high: nat)
    requires width > 0 && low * width <= value < high * width
    ensures low <= value / width < high
  {
    var q := value / width;
    assert q * width <= value < (q + 1) * width;
    if q < low {
      Ordered(q + 1, low, width);
    }
    if q >= high {
      Ordered(high, q, width);
    }
  }

  lemma Ordered(a: nat, b: nat, width: nat)
    requires a <= b
    ensures a * width <= b * width
  {
  }

  function IndexFor(value: nat): (index: nat)
    requires value <= MAX_VALUE
  {
    if value < EXACT_LIMIT then value
    else
      TopBits(value);
      var exponent := Log2(value) - 10; // value / 2^exponent lands in [1024, 2047]
      EXACT_LIMIT + (exponent - 1) * SUB_BUCKETS + (value / Pow2(exponent) - SUB_BUCKETS)
  }

  lemma ExponentAndMantissa(exponent: nat, mantissa: nat, index: nat)
    requires exponent >= 1 && SUB_BUCKETS <= mantissa < 2 * SUB_BUCKETS
    requires index == EXACT_LIMIT + (exponent - 1) * SUB_BUCKETS + (mantissa - SUB_BUCKETS)
    ensures Exponent(index) == exponent && Mantissa(index) == mantissa
  {
  }

  lemma Truncation(value: nat, width: nat)
    requires width > 0
    ensures (value / width) * width <= value <= (value / width + 1) * width - 1
  {
  }

  /** Every value has a bucket, and lies between that bucket's bounds. */
  lemma ValueInItsBucket(value: nat)
    requires value <= MAX_VALUE
    ensures IndexFor(value) < BUCKET_COUNT
    ensures Lower(IndexFor(value)) <= value <= Upper(IndexFor(value))
  {
    if value >= EXACT_LIMIT {
      hide Pow2, Log2, Exponent, Mantissa;
      TopBits(value);
      var exponent: nat := Log2(value) - 10;
      var mantissa := value / Pow2(exponent);
      ExponentAndMantissa(exponent, mantissa, IndexFor(value));
      Truncation(value, Pow2(exponent));
    }
  }

  lemma Edges()
    ensures Lower(0) == 0 && Upper(BUCKET_COUNT - 1) == MAX_VALUE
  {
    TenBits();
    ExponentAndMantissa(21, 2047, BUCKET_COUNT - 1);
    Pow2Sum(11, 21);
  }

  /** Each bucket starts right after the one before. */
  lemma BucketsTile(index: nat)
    ensures Lower(index) <= Upper(index) && Lower(index + 1) == Upper(index) + 1
  {
    var e, m := Exponent(index), Mantissa(index);
    if index == EXACT_LIMIT - 1 {
      ExponentAndMantissa(1, SUB_BUCKETS, index + 1);
      assert Pow2(1) == 2;
    } else if index >= EXACT_LIMIT {
      hide Pow2;
      if m == 2 * SUB_BUCKETS - 1 {
        ExponentAndMantissa(e + 1, SUB_BUCKETS, index + 1);
      } else {
        ExponentAndMantissa(e, m + 1, index + 1);
      }
    }
  }

  lemma {:induction false} BucketsAscend(i: nat, j: nat)
    requires i < j < BUCKET_COUNT
    ensures Upper(i) < Lower(j)
    decreases j
  {
    hide Lower, Upper;
    BucketsTile(j - 1);
    if i < j - 1 {
      BucketsAscend(i, j - 1);
    }
  }

  /** The buckets partition the values: one holds a value exactly when it is the value's own. */
  lemma BucketsPartition(value: nat, index: nat)
    requires value <= MAX_VALUE && index < BUCKET_COUNT
    ensures IndexFor(value) == index <==> Lower(index) <= value <= Upper(index)
  {
    hide Lower, Upper, IndexFor;
    ValueInItsBucket(value);
    var own := IndexFor(value);
    if own < index {
      BucketsAscend(own, index);
    } else if index < own {
      BucketsAscend(index, own);
    }
  }

  /** A bucket's upper end exceeds any value in it by less than 1/1024 of that value. */
  lemma BucketsAreNarrow(value: nat, index: nat)
    requires index < BUCKET_COUNT && Lower(index) <= value <= Upper(index)
    ensures Upper(index) == value || (Upper(index) - value) * SUB_BUCKETS < value
  {
    if index >= EXACT_LIMIT {
      var width := Pow2(Exponent(index));
      assert Upper(index) - Lower(index) == width - 1;
      Ordered(SUB_BUCKETS, Mantissa(index), width);
    }
  }
}
