/** Finite sums and counts over integer ranges, the arithmetic behind the
    pattern counters and the positional sum. */
module Counting {

  /** The number of `i` in `[lo, hi)` for which `f(i)` holds. */
  function Count(lo: int, hi: int, f: int -> bool): nat
    decreases hi - lo
  {
    if lo >= hi then 0 else (if f(lo) then 1 else 0) + Count(lo + 1, hi, f)
  }

  /** The sum of `f(i)` over `i` in `[lo, hi)`. */
  function Sum(lo: int, hi: int, f: int -> int): int
    decreases hi - lo
  {
    if lo >= hi then 0 else f(lo) + Sum(lo + 1, hi, f)
  }

  lemma {:induction false} CountPeelHigh(lo: int, hi: int, f: int -> bool)
    requires lo < hi
    ensures Count(lo, hi, f) == Count(lo, hi - 1, f) + (if f(hi - 1) then 1 else 0)
    decreases hi - lo
  {
    if lo < hi - 1 {
      CountPeelHigh(lo + 1, hi, f);
    }
  }

  lemma SumPeelLow(lo: int, hi: int, f: int -> int)
    requires lo < hi
    ensures Sum(lo, hi, f) == f(lo) + Sum(lo + 1, hi, f)
  {
  }

  lemma {:induction false} SumPeelHigh(lo: int, hi: int, f: int -> int)
    requires lo < hi
    ensures Sum(lo, hi, f) == Sum(lo, hi - 1, f) + f(hi - 1)
    decreases hi - lo
  {
    if lo < hi - 1 {
      SumPeelHigh(lo + 1, hi, f);
    }
  }

  lemma {:induction false} CountSplit(lo: int, mid: int, hi: int, f: int -> bool)
    requires lo <= mid <= hi
    ensures Count(lo, hi, f) == Count(lo, mid, f) + Count(mid, hi, f)
    decreases mid - lo
  {
    if lo < mid {
      CountSplit(lo + 1, mid, hi, f);
    }
  }

  lemma {:induction false} SumSplit(lo: int, mid: int, hi: int, f: int -> int)
    requires lo <= mid <= hi
    ensures Sum(lo, hi, f) == Sum(lo, mid, f) + Sum(mid, hi, f)
    decreases mid - lo
  {
    if lo < mid {
      SumSplit(lo + 1, mid, hi, f);
    }
  }

  /** No index satisfies `f`: the count is zero. */
  lemma {:induction false} CountNone(lo: int, hi: int, f: int -> bool)
    requires forall i :: lo <= i < hi ==> !f(i)
    ensures Count(lo, hi, f) == 0
    decreases hi - lo
  {
    if lo < hi {
      CountNone(lo + 1, hi, f);
    }
  }

  /** A pointwise weaker predicate counts at least as many indices. */
  lemma {:induction false} CountMono(lo: int, hi: int, f: int -> bool, g: int -> bool)
    requires forall i :: lo <= i < hi && f(i) ==> g(i)
    ensures Count(lo, hi, f) <= Count(lo, hi, g)
    decreases hi - lo
  {
    if lo < hi {
      CountMono(lo + 1, hi, f, g);
    }
  }

  /** A longer range counts at least as many indices. */
  lemma {:induction false} CountRangeMono(lo: int, hi: int, hi': int, f: int -> bool)
    requires hi <= hi'
    ensures Count(lo, hi, f) <= Count(lo, hi', f)
  {
    if lo <= hi {
      CountSplit(lo, hi, hi', f);
    }
  }

  lemma {:induction false} CountSame(lo: int, hi: int, f: int -> bool, g: int -> bool)
    requires forall i :: lo <= i < hi ==> f(i) == g(i)
    ensures Count(lo, hi, f) == Count(lo, hi, g)
    decreases hi - lo
  {
    if lo < hi {
      CountSame(lo + 1, hi, f, g);
    }
  }

  lemma {:induction false} SumMono(lo: int, hi: int, f: int -> int, g: int -> int)
    requires forall i :: lo <= i < hi ==> f(i) <= g(i)
    ensures Sum(lo, hi, f) <= Sum(lo, hi, g)
    decreases hi - lo
  {
    if lo < hi {
      SumMono(lo + 1, hi, f, g);
    }
  }

  lemma {:induction false} SumSame(lo: int, hi: int, f: int -> int, g: int -> int)
    requires forall i :: lo <= i < hi ==> f(i) == g(i)
    ensures Sum(lo, hi, f) == Sum(lo, hi, g)
    decreases hi - lo
  {
    if lo < hi {
      SumSame(lo + 1, hi, f, g);
    }
  }

  lemma {:induction false} SumNegate(lo: int, hi: int, f: int -> int, g: int -> int)
    requires forall i :: lo <= i < hi ==> g(i) == -f(i)
    ensures Sum(lo, hi, g) == -Sum(lo, hi, f)
    decreases hi - lo
  {
    if lo < hi {
      SumNegate(lo + 1, hi, f, g);
    }
  }

  lemma {:induction false} SumZero(lo: int, hi: int, f: int -> int)
    requires forall i :: lo <= i < hi ==> f(i) == 0
    ensures Sum(lo, hi, f) == 0
    decreases hi - lo
  {
    if lo < hi {
      SumZero(lo + 1, hi, f);
    }
  }

  /** A sum of non-negative terms does not shrink when the range grows. */
  lemma {:induction false} SumRangeMono(lo: int, hi: int, hi': int, f: int -> int)
    requires lo <= hi <= hi'
    requires forall i :: hi <= i < hi' ==> f(i) >= 0
    ensures Sum(lo, hi, f) <= Sum(lo, hi', f)
    decreases hi' - hi
  {
    if hi < hi' {
      SumRangeMono(lo, hi, hi' - 1, f);
      SumPeelHigh(lo, hi', f);
    }
  }

  /** Summing the terms in reverse order gives the same total. */
  lemma {:induction false} SumReverse(lo: int, hi: int, f: int -> int, g: int -> int)
    requires forall i :: lo <= i < hi ==> g(i) == f(lo + hi - 1 - i)
    ensures Sum(lo, hi, g) == Sum(lo, hi, f)
    decreases hi - lo
  {
    if lo < hi {
      // g(lo) == f(hi - 1), and g on [lo + 1, hi) is f on [lo, hi - 1) reversed
      SumReverse(lo, hi - 1, f, (i: int) => g(i + 1));
      SumShift(lo, hi - 1, g);
      SumPeelHigh(lo, hi, f);
    }
  }

  /** Shifting the index by one. */
  lemma {:induction false} SumShift(lo: int, hi: int, g: int -> int)
    ensures Sum(lo, hi, (i: int) => g(i + 1)) == Sum(lo + 1, hi + 1, g)
    decreases hi - lo
  {
    if lo < hi {
      SumShift(lo + 1, hi, g);
    }
  }

  /** A sum of non-negative terms is non-negative. */
  lemma {:induction false} SumNonNegative(lo: int, hi: int, f: int -> int)
    requires forall i :: lo <= i < hi ==> f(i) >= 0
    ensures Sum(lo, hi, f) >= 0
    decreases hi - lo
  {
    if lo < hi {
      SumNonNegative(lo + 1, hi, f);
    }
  }

  /** One index satisfying `f` makes the count positive. */
  lemma {:induction false} CountPositive(lo: int, hi: int, f: int -> bool, j: int)
    requires lo <= j < hi && f(j)
    ensures Count(lo, hi, f) > 0
    decreases hi - lo
  {
    if lo < j {
      CountPositive(lo + 1, hi, f, j);
    }
  }

  /** A sum of non-negative terms with one positive term is positive. */
  lemma {:induction false} SumPositive(lo: int, hi: int, f: int -> int, j: int)
    requires forall i :: lo <= i < hi ==> f(i) >= 0
    requires lo <= j < hi && f(j) > 0
    ensures Sum(lo, hi, f) > 0
    decreases hi - lo
  {
    if lo < j {
      SumPositive(lo + 1, hi, f, j);
    } else {
      SumNonNegative(lo + 1, hi, f);
    }
  }

  /** A sum of non-negative terms is zero only when every term is. */
  lemma {:induction false} SumZeroTerms(lo: int, hi: int, f: int -> int, j: int)
    requires forall i :: lo <= i < hi ==> f(i) >= 0
    requires Sum(lo, hi, f) == 0 && lo <= j < hi
    ensures f(j) == 0
  {
    if f(j) != 0 {
      SumPositive(lo, hi, f, j);
    }
  }

  /** A positive count has an index that satisfies `f`. */
  lemma {:induction false} CountWitness(lo: int, hi: int, f: int -> bool) returns (j: int)
    requires Count(lo, hi, f) > 0
    ensures lo <= j < hi && f(j)
    decreases hi - lo
  {
    if f(lo) {
      j := lo;
    } else {
      j := CountWitness(lo + 1, hi, f);
    }
  }

  /** A positive sum has a positive term. */
  lemma {:induction false} SumWitness(lo: int, hi: int, f: int -> int) returns (j: int)
    requires Sum(lo, hi, f) > 0
    ensures lo <= j < hi && f(j) > 0
    decreases hi - lo
  {
    if f(lo) > 0 {
      j := lo;
    } else {
      j := SumWitness(lo + 1, hi, f);
    }
  }
}
