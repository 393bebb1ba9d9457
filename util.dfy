/** The numeric helpers of musubi_eval/util.py: linear-interpolation percentiles and the
    capped exponential backoff delay. */
module Util {
  import opened Values

  function Min(a: int, b: int): int { if a <= b then a else b }
  function MinReal(a: real, b: real): real { if a <= b then a else b }

  // ---------------------------------------------------------------- sorted()

  predicate Sorted(s: seq<real>) {
    forall i, j :: 0 <= i < j < |s| ==> s[i] <= s[j]
  }

  /** x inserted into the sorted sequence s before its first larger element. */
  function Insert(x: real, s: seq<real>): (r: seq<real>)
    requires Sorted(s)
    ensures Sorted(r)
    ensures multiset(r) == multiset(s) + multiset{x}
    ensures |r| == |s| + 1
  {
    if s == [] then [x]
    else if x <= s[0] then
      SortedCons(x, s);
      [x] + s
    else
      var rest := Insert(x, s[1..]);
      assert s == [s[0]] + s[1..];
      BoundedBelow(s[0], s[1..], x, rest);
      SortedCons(s[0], rest);
      [s[0]] + rest
  }

  /** A sorted sequence stays sorted under a head no larger than its first element. */
  lemma SortedCons(a: real, s: seq<real>)
    requires Sorted(s) && (s == [] || a <= s[0])
    ensures Sorted([a] + s)
  {
    var r := [a] + s;
    forall i, j | 0 <= i < j < |r|
      ensures r[i] <= r[j]
    {
      assert r[j] == s[j - 1];
      if i > 0 {
        assert r[i] == s[i - 1];
      }
    }
  }

  /** Every element of rest is x or an element of s, so all are at least lo. */
  lemma BoundedBelow(lo: real, s: seq<real>, x: real, rest: seq<real>)
    requires lo <= x
    requires forall i :: 0 <= i < |s| ==> lo <= s[i]
    requires multiset(rest) == multiset(s) + multiset{x}
    ensures forall j :: 0 <= j < |rest| ==> lo <= rest[j]
  {
    forall j | 0 <= j < |rest|
      ensures lo <= rest[j]
    {
      assert rest[j] in multiset(rest);
      if rest[j] != x {
        assert rest[j] in multiset(s);
        assert rest[j] in s;
      }
    }
  }

  /** Python's sorted() on floats: the same values in ascending order. */
  function Sort(s: seq<real>): (r: seq<real>)
    ensures Sorted(r)
    ensures multiset(r) == multiset(s)
    ensures |r| == |s|
  {
    if s == [] then [] else
      assert s == s[..|s| - 1] + [s[|s| - 1]];
      Insert(s[|s| - 1], Sort(s[..|s| - 1]))
  }

  lemma SortedMinMax(s: seq<real>, v: seq<real>)
    requires Sorted(s) && multiset(s) == multiset(v) && s != []
    ensures forall i :: 0 <= i < |v| ==> s[0] <= v[i] <= s[|s| - 1]
    ensures s[0] in v && s[|s| - 1] in v
  {
    forall i | 0 <= i < |v|
      ensures s[0] <= v[i] <= s[|s| - 1]
    {
      assert v[i] in multiset(v);
      assert v[i] in s;
    }
    assert s[0] in multiset(s);
    assert s[|s| - 1] in multiset(s);
  }

  // ---------------------------------------------------------------- percentiles

  /** The dictionary key `f"p{int(p)}"`. */
  function PercentileKey(p: real): string {
    "p" + IntToDecimal(Trunc(p))
  }

  /** The keys produced for the requested percentiles. */
  function Keys(ps: seq<real>): set<string> {
    set p | p in ps :: PercentileKey(p)
  }

  /** s[i] with Python's negative indexing; out of range is IndexError. */
  function PyIndex(s: seq<real>, i: int): (r: Result<real>)
    ensures 0 <= i < |s| ==> r == Ok(s[i])
    ensures (i < -|s| || i >= |s|) ==> r == Err(IndexError)
  {
    if 0 <= i < |s| then Ok(s[i])
    else if -|s| <= i < 0 then Ok(s[|s| + i])
    else Err(IndexError)
  }

  /** The point at weight frac on the way from a to b. */
  function Lerp(a: real, b: real, frac: real): real {
    a * (1.0 - frac) + b * frac
  }

  /** The inner percentile_value(p) over the sorted samples. A negative p or one above 100
      can index out of range or from the end, as the Python code does. */
  function PercentileValue(sorted: seq<real>, p: real): Result<real>
    requires sorted != []
  {
    var count := |sorted|;
    if count == 1 then Ok(sorted[0])
    else
      var rank := (p / 100.0) * (count - 1) as real;
      var lo := Trunc(rank);
      var hi := Min(lo + 1, count - 1);
      var frac := rank - lo as real;
      match (PyIndex(sorted, lo), PyIndex(sorted, hi))
      case (Ok(loVal), Ok(hiVal)) => Ok(Lerp(loVal, hiVal, frac))
      case (Err(e), _) => Err(e)
      case (_, Err(e)) => Err(e)
  }

  /** The dictionary comprehension over ps, left to right: a later duplicate key overwrites
      an earlier one, and the first IndexError ends the computation. */
  function PercentilesOf(sorted: seq<real>, ps: seq<real>): Result<map<string, Option<real>>>
    requires sorted != []
  {
    if ps == [] then Ok(map[])
    else
      var m :- PercentilesOf(sorted, ps[..|ps| - 1]);
      var v :- PercentileValue(sorted, ps[|ps| - 1]);
      Ok(m[PercentileKey(ps[|ps| - 1]) := Some(v)])
  }

  /** percentiles(values, ps). For no samples every key maps to None ("no data"). */
  function Percentiles(values: seq<real>, ps: seq<real>): Result<map<string, Option<real>>> {
    if values == [] then Ok(map k | k in Keys(ps) :: None)
    else PercentilesOf(Sort(values), ps)
  }

  /** No samples: every requested key is present and maps to None, never to a number. */
  lemma PercentilesNoData(ps: seq<real>)
    ensures Percentiles([], ps).Ok?
    ensures Percentiles([], ps).value.Keys == Keys(ps)
    ensures forall k :: k in Percentiles([], ps).value ==> Percentiles([], ps).value[k] == None
  {
  }

  lemma {:induction false} PercentilesOfKeys(sorted: seq<real>, ps: seq<real>)
    requires sorted != []
    ensures PercentilesOf(sorted, ps).Ok? ==> PercentilesOf(sorted, ps).value.Keys == Keys(ps)
  {
    if ps != [] {
      var init := ps[..|ps| - 1];
      PercentilesOfKeys(sorted, init);
      assert ps == init + [ps[|ps| - 1]];
      assert Keys(ps) == Keys(init) + {PercentileKey(ps[|ps| - 1])};
    }
  }

  /** One key per requested percentile, whatever the samples. */
  lemma PercentilesKeys(values: seq<real>, ps: seq<real>)
    ensures Percentiles(values, ps).Ok? ==> Percentiles(values, ps).value.Keys == Keys(ps)
  {
    if values != [] {
      PercentilesOfKeys(Sort(values), ps);
    }
  }

  /** Every value of a successful result is a percentile_value of one of the requested p
      whose key it is stored under. */
  lemma {:induction false} PercentilesOfValues(sorted: seq<real>, ps: seq<real>)
    requires sorted != []
    ensures PercentilesOf(sorted, ps).Ok? ==>
      forall k :: k in PercentilesOf(sorted, ps).value ==>
        exists i :: 0 <= i < |ps| && PercentileKey(ps[i]) == k &&
          PercentilesOf(sorted, ps).value[k].Some? &&
          PercentileValue(sorted, ps[i]) == Ok(PercentilesOf(sorted, ps).value[k].value)
  {
    if ps != [] {
      PercentilesOfValues(sorted, ps[..|ps| - 1]);
    }
  }

  /** A percentile in [0, 100] never indexes out of range. */
  lemma PercentileInRangeOk(sorted: seq<real>, p: real)
    requires sorted != []
    requires 0.0 <= p <= 100.0
    ensures PercentileValue(sorted, p).Ok?
  {
    var count := |sorted|;
    if count > 1 {
      RankBounds(p, count);
    }
  }

  lemma RankBounds(p: real, count: int)
    requires 0.0 <= p <= 100.0 && count > 1
    ensures 0.0 <= (p / 100.0) * (count - 1) as real <= (count - 1) as real
    ensures 0 <= Trunc((p / 100.0) * (count - 1) as real) <= count - 1
  {
    var rank := (p / 100.0) * (count - 1) as real;
    assert 0.0 <= p / 100.0 <= 1.0;
    MulLeOne(p / 100.0, (count - 1) as real);
    assert rank.Floor <= count - 1;
  }

  lemma MulLeOne(f: real, x: real)
    requires 0.0 <= f <= 1.0 && 0.0 <= x
    ensures 0.0 <= f * x <= x
  {
  }

  /** For two or more samples and 0 <= p <= 100, the result is the linear interpolation of
      the sorted samples at lo = floor(rank) and hi = min(lo + 1, n - 1), where
      rank = p / 100 * (n - 1), with weight frac = rank - lo in [0, 1). */
  lemma PercentileInterpolates(sorted: seq<real>, p: real) returns (lo: int, hi: int, frac: real)
    requires |sorted| >= 2
    requires 0.0 <= p <= 100.0
    ensures lo == ((p / 100.0) * (|sorted| - 1) as real).Floor
    ensures hi == Min(lo + 1, |sorted| - 1)
    ensures 0 <= lo <= hi < |sorted|
    ensures frac == (p / 100.0) * (|sorted| - 1) as real - lo as real && 0.0 <= frac < 1.0
    ensures PercentileValue(sorted, p) == Ok(Lerp(sorted[lo], sorted[hi], frac))
  {
    var count := |sorted|;
    RankBounds(p, count);
    var rank := (p / 100.0) * (count - 1) as real;
    lo := Trunc(rank);
    hi := Min(lo + 1, count - 1);
    frac := rank - lo as real;
    assert PyIndex(sorted, lo) == Ok(sorted[lo]);
    assert PyIndex(sorted, hi) == Ok(sorted[hi]);
  }

  /** With samples and 0 <= p <= 100 the result lies between the smallest and the largest
      sample; for one sample it is that sample. */
  lemma PercentileBetween(sorted: seq<real>, p: real)
    requires sorted != [] && Sorted(sorted)
    requires 0.0 <= p <= 100.0
    ensures PercentileValue(sorted, p).Ok?
    ensures sorted[0] <= PercentileValue(sorted, p).value <= sorted[|sorted| - 1]
    ensures |sorted| == 1 ==> PercentileValue(sorted, p).value == sorted[0]
  {
    if |sorted| > 1 {
      var lo, hi, frac := PercentileInterpolates(sorted, p);
      var first, last := sorted[0], sorted[|sorted| - 1];
      assert first <= sorted[lo] <= last;
      assert first <= sorted[hi] <= last;
      Interpolate(sorted[lo], sorted[hi], frac, first, last);
    }
  }

  lemma Interpolate(a: real, b: real, f: real, lo: real, hi: real)
    requires lo <= a <= hi && lo <= b <= hi && 0.0 <= f <= 1.0
    ensures lo <= Lerp(a, b, f) <= hi
  {
    var da, db := a - lo, b - lo;
    assert da * (1.0 - f) >= 0.0 && db * f >= 0.0;
    assert a * (1.0 - f) + b * f == lo + da * (1.0 - f) + db * f;
    var ea, eb := hi - a, hi - b;
    assert ea * (1.0 - f) >= 0.0 && eb * f >= 0.0;
    assert a * (1.0 - f) + b * f == hi - ea * (1.0 - f) - eb * f;
  }

  lemma MulMono(d: real, f: real)
    requires d >= 0.0 && f >= 0.0
    ensures d * f >= 0.0
  {
  }

  lemma MulLe(c: real, x: real, y: real)
    requires c >= 0.0 && x <= y
    ensures c * x <= c * y && x * c <= y * c
  {
    MulMono(c, y - x);
    assert c * (y - x) == c * y - c * x;
  }

  /** p0 is the smallest sample and p100 the largest. */
  lemma PercentileEnds(sorted: seq<real>)
    requires sorted != []
    ensures PercentileValue(sorted, 0.0) == Ok(sorted[0])
    ensures PercentileValue(sorted, 100.0) == Ok(sorted[|sorted| - 1])
  {
    if |sorted| > 1 {
      var lo, hi, frac := PercentileInterpolates(sorted, 0.0);
      assert lo == 0 && frac == 0.0;
      lo, hi, frac := PercentileInterpolates(sorted, 100.0);
      assert lo == |sorted| - 1 && frac == 0.0;
    }
  }

  /** A p above 100 can index past the end: whenever the rank's integer part reaches the
      number of samples, the lower index is out of range and the result is an IndexError;
      such a p is always above 100. */
  lemma PercentileAboveHundred(sorted: seq<real>, p: real)
    requires |sorted| >= 2
    ensures ((p / 100.0) * (|sorted| - 1) as real).Floor >= |sorted| ==>
      p > 100.0 && PercentileValue(sorted, p) == Err(IndexError)
  {
    var rank := (p / 100.0) * (|sorted| - 1) as real;
    if rank.Floor >= |sorted| {
      assert Trunc(rank) == rank.Floor;
      assert p / 100.0 > 1.0;
    }
  }

  /** With samples, percentiles over 0 <= p <= 100 always succeeds and maps each key to a
      number that lies between the smallest and the largest sample. */
  lemma PercentilesInRange(values: seq<real>, ps: seq<real>)
    requires values != []
    requires forall i :: 0 <= i < |ps| ==> 0.0 <= ps[i] <= 100.0
    ensures Percentiles(values, ps).Ok?
    ensures forall k :: k in Percentiles(values, ps).value ==>
      Percentiles(values, ps).value[k].Some? &&
      (exists i :: 0 <= i < |values| && values[i] <= Percentiles(values, ps).value[k].value) &&
      (exists j :: 0 <= j < |values| && Percentiles(values, ps).value[k].value <= values[j])
  {
    var sorted := Sort(values);
    PercentilesOfOk(sorted, ps);
    PercentilesOfValues(sorted, ps);
    SortedMinMax(sorted, values);
    var m := Percentiles(values, ps).value;
    forall k | k in m
      ensures m[k].Some?
      ensures exists i :: 0 <= i < |values| && values[i] <= m[k].value
      ensures exists j :: 0 <= j < |values| && m[k].value <= values[j]
    {
      var n :| 0 <= n < |ps| && PercentileKey(ps[n]) == k &&
        m[k].Some? && PercentileValue(sorted, ps[n]) == Ok(m[k].value);
      PercentileBetween(sorted, ps[n]);
      var i :| 0 <= i < |values| && values[i] == sorted[0];
      var j :| 0 <= j < |values| && values[j] == sorted[|sorted| - 1];
    }
  }

  /** With a single sample every percentile, in range or not, is that sample. */
  lemma {:induction false} PercentilesSingle(x: real, ps: seq<real>)
    ensures Percentiles([x], ps).Ok?
    ensures forall k :: k in Percentiles([x], ps).value ==> Percentiles([x], ps).value[k] == Some(x)
  {
    assert Sort([x]) == [x] by {
      assert [x][..0] == [];
    }
    PercentilesOfSingle(x, ps);
  }

  lemma {:induction false} PercentilesOfSingle(x: real, ps: seq<real>)
    ensures PercentilesOf([x], ps).Ok?
    ensures forall k :: k in PercentilesOf([x], ps).value ==> PercentilesOf([x], ps).value[k] == Some(x)
  {
    if ps != [] {
      PercentilesOfSingle(x, ps[..|ps| - 1]);
    }
  }

  lemma {:induction false} PercentilesOfOk(sorted: seq<real>, ps: seq<real>)
    requires sorted != []
    requires forall i :: 0 <= i < |ps| ==> 0.0 <= ps[i] <= 100.0
    ensures PercentilesOf(sorted, ps).Ok?
  {
    if ps != [] {
      PercentilesOfOk(sorted, ps[..|ps| - 1]);
      PercentileInRangeOk(sorted, ps[|ps| - 1]);
    }
  }

  // ---------------------------------------------------------------- backoff

  function Pow2(n: nat): (r: nat)
    ensures r >= 1
  {
    if n == 0 then 1 else 2 * Pow2(n - 1)
  }

  /** base_sec * 2 ** n, by doubling n times. */
  function Scaled(baseSec: real, n: nat): real {
    if n == 0 then baseSec else 2.0 * Scaled(baseSec, n - 1)
  }

  /** Doubling n times is multiplying by 2 ** n. */
  lemma {:induction false} ScaledIsProduct(baseSec: real, n: nat)
    ensures Scaled(baseSec, n) == baseSec * Pow2(n) as real
  {
    if n > 0 {
      ScaledIsProduct(baseSec, n - 1);
      assert Pow2(n) as real == 2.0 * Pow2(n - 1) as real;
    }
  }

  /** For a non-negative base, doubling more often gives a larger non-negative delay. */
  lemma {:induction false} ScaledMono(baseSec: real, m: nat, n: nat)
    requires baseSec >= 0.0 && m <= n
    ensures 0.0 <= Scaled(baseSec, m) <= Scaled(baseSec, n)
  {
    if m < n {
      ScaledMono(baseSec, m, n - 1);
    } else if n > 0 {
      ScaledMono(baseSec, 0, n - 1);
    }
  }

  /** The base delay of sleep_backoff: min(max_sec, base_sec * 2 ** max(0, attempt - 1)). */
  function BackoffDelay(attempt: int, baseSec: real, maxSec: real): real {
    MinReal(maxSec, Scaled(baseSec, BackoffExponent(attempt)))
  }

  /** The exponent max(0, attempt - 1). */
  function BackoffExponent(attempt: int): nat {
    if attempt - 1 > 0 then attempt - 1 else 0
  }

  /** The base delay is the capped product of base_sec and 2 ** max(0, attempt - 1). */
  lemma BackoffDelayProduct(attempt: int, baseSec: real, maxSec: real)
    ensures BackoffDelay(attempt, baseSec, maxSec)
         == MinReal(maxSec, baseSec * Pow2(BackoffExponent(attempt)) as real)
  {
    ScaledIsProduct(baseSec, BackoffExponent(attempt));
  }

  /** On the first attempt (and before it) the base delay is base_sec, when under the cap. */
  lemma BackoffDelayFirst(attempt: int, baseSec: real, maxSec: real)
    requires attempt <= 1 && baseSec <= maxSec
    ensures BackoffDelay(attempt, baseSec, maxSec) == baseSec
  {
    assert BackoffExponent(attempt) == 0;
  }

  /** For a non-negative base_sec the base delay does not decrease as the attempt grows,
      and it never exceeds max_sec. */
  lemma BackoffDelayMonotone(a: int, b: int, baseSec: real, maxSec: real)
    requires a <= b && baseSec >= 0.0
    ensures BackoffDelay(a, baseSec, maxSec) <= BackoffDelay(b, baseSec, maxSec) <= maxSec
  {
    ScaledMono(baseSec, BackoffExponent(a), BackoffExponent(b));
  }

  /** Non-negative settings give a non-negative base delay. */
  lemma BackoffNonNegative(attempt: int, baseSec: real, maxSec: real)
    requires baseSec >= 0.0 && maxSec >= 0.0
    ensures BackoffDelay(attempt, baseSec, maxSec) >= 0.0
  {
    ScaledMono(baseSec, 0, BackoffExponent(attempt));
  }

  /** The jittered delay `base_delay * uniform(0.8, 1.2)`. */
  function JitteredDelay(baseDelay: real, jitter: real): real {
    baseDelay * jitter
  }

  /** For a non-negative base delay and a jitter drawn from [0.8, 1.2], the jittered delay
      lies in [0.8, 1.2] times the base delay. */
  lemma JitteredDelayBounds(baseDelay: real, jitter: real)
    requires baseDelay >= 0.0 && 0.8 <= jitter <= 1.2
    ensures 0.8 * baseDelay <= JitteredDelay(baseDelay, jitter) <= 1.2 * baseDelay
  {
    MulMono(baseDelay, jitter - 0.8);
    MulMono(baseDelay, 1.2 - jitter);
  }

  // ---------------------------------------------------------------- waiting loops

  /** A bound on the iterations left of a loop that stops once its clock passes `deadline`
      and advances the clock by at least `step` per iteration. */
  function Countdown(now: real, deadline: real, step: real): nat
    requires step > 0.0
  {
    if now > deadline then 0 else ((deadline - now) / step).Floor + 1
  }

  lemma CountdownDecreases(now: real, later: real, deadline: real, step: real)
    requires step > 0.0 && later >= now + step && now <= deadline
    ensures Countdown(later, deadline, step) < Countdown(now, deadline, step)
  {
    if later <= deadline {
      var x, y := (deadline - now) / step, (deadline - later) / step;
      assert y + 1.0 <= x by {
        assert (deadline - later) + step <= deadline - now;
        DivLe((deadline - later) + step, deadline - now, step);
        DivAddOne(deadline - later, step);
      }
      assert (y + 1.0).Floor == y.Floor + 1;
    }
  }

  lemma DivAddOne(a: real, c: real)
    requires c > 0.0
    ensures (a + c) / c == a / c + 1.0
  {
    assert c / c == 1.0;
    assert (a + c) / c == a / c + c / c;
  }

  lemma DivLe(a: real, b: real, c: real)
    requires a <= b && c > 0.0
    ensures a / c <= b / c
  {
    assert b / c - a / c == (b - a) / c;
  }

  // ---------------------------------------------------------------- histories

  /** The suffix of h after its first n elements. */
  function Since<T>(h: seq<T>, n: nat): seq<T>
    requires n <= |h|
  {
    h[n..]
  }

  /** A history that extends an earlier one. */
  ghost predicate Extends<T>(h: seq<T>, h0: seq<T>) {
    |h| >= |h0| && h[..|h0|] == h0
  }

  lemma SinceAppend<T>(h: seq<T>, n: nat, tail: seq<T>)
    requires n <= |h|
    ensures Since(h + tail, n) == Since(h, n) + tail
    ensures Extends(h + tail, h[..n])
  {
  }

  /** Two successive extensions of a history make one. */
  lemma SinceStep<T>(h0: seq<T>, h1: seq<T>, h2: seq<T>)
    requires Extends(h1, h0) && Extends(h2, h1)
    ensures Extends(h2, h0)
    ensures Since(h2, |h0|) == Since(h1, |h0|) + Since(h2, |h1|)
  {
    assert h1 == h0 + Since(h1, |h0|);
    assert h2 == h1 + Since(h2, |h1|);
  }

  /** Three successive extensions of a history make one. */
  lemma SinceChain<T>(h0: seq<T>, h1: seq<T>, h2: seq<T>, h3: seq<T>)
    requires Extends(h1, h0) && Extends(h2, h1) && Extends(h3, h2)
    ensures Extends(h3, h0)
    ensures Since(h3, |h0|) == Since(h1, |h0|) + Since(h2, |h1|) + Since(h3, |h2|)
  {
    assert h1 == h0 + Since(h1, |h0|);
    assert h2 == h1 + Since(h2, |h1|);
    assert h3 == h2 + Since(h3, |h2|);
  }

  /** Cut points 0 = bounds[0] <= ... <= bounds[|bounds| - 1] = n of a sequence of length n. */
  predicate Cuts(bounds: seq<nat>, n: nat) {
    && |bounds| >= 1 && bounds[0] == 0 && bounds[|bounds| - 1] == n
    && forall i, j :: 0 <= i <= j < |bounds| ==> bounds[i] <= bounds[j]
  }

  /** The j-th block of seg between two successive cut points. */
  function Block<T>(seg: seq<T>, bounds: seq<nat>, j: nat): seq<T>
    requires Cuts(bounds, |seg|) && j + 1 < |bounds|
  {
    seg[bounds[j]..bounds[j + 1]]
  }

  /** Appending a block keeps the earlier blocks and adds it as the last. */
  lemma BlocksExtend<T>(seg: seq<T>, bounds: seq<nat>, block: seq<T>)
    requires Cuts(bounds, |seg|)
    ensures Cuts(bounds + [|seg + block|], |seg + block|)
    ensures forall j :: 0 <= j < |bounds| - 1 ==>
      Block(seg + block, bounds + [|seg + block|], j) == Block(seg, bounds, j)
    ensures Block(seg + block, bounds + [|seg + block|], |bounds| - 1) == block
  {
    var b := bounds + [|seg + block|];
    forall j | 0 <= j < |bounds| - 1
      ensures Block(seg + block, b, j) == Block(seg, bounds, j)
    {
      assert bounds[j] <= bounds[j + 1] <= |seg|;
    }
  }
}
