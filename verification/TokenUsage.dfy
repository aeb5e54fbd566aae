/**
 The token ledger entry of one model response and its saturating sum.
 Every counter is a Go `int`; the sum clamps at the largest one.
 */
module TokenUsage {
  const MAX_INT: int := 0x7FFF_FFFF_FFFF_FFFF

  type GoInt = x: int | -MAX_INT - 1 <= x <= MAX_INT

  datatype Usage = Usage(
    input: GoInt, cached: GoInt, cachedReported: bool, cacheWrite: GoInt, cacheWriteReported: bool,
    output: GoInt, reasoning: GoInt, total: GoInt)

  const ZERO: Usage := Usage(0, 0, false, 0, false, 0, 0, 0)

  function Max(a: int, b: int): int { if a < b then b else a }

  function Min(a: int, b: int): int { if a < b then a else b }

  function SaturatingTokenAdd(left: GoInt, right: GoInt): (sum: GoInt)
    requires 0 <= left && 0 <= right
    ensures sum == Min(left + right, MAX_INT)
  {
    if left >= MAX_INT - right then MAX_INT else left + right
  }

  function NormalizedUsage(u: Usage): (n: Usage)
    ensures Consistent(n)
  {
    var input: GoInt := Max(0, u.input);
    var cached: GoInt := Min(Max(0, u.cached), input);
    var cacheWrite: GoInt := Min(Max(0, u.cacheWrite), input);
    var output: GoInt := Max(0, u.output);
    var reasoning: GoInt := Min(Max(0, u.reasoning), output);
    Usage(input, cached, u.cachedReported || cached > 0, cacheWrite, u.cacheWriteReported || cacheWrite > 0,
          output, reasoning, Max(Max(0, u.total), SaturatingTokenAdd(input, output)))
  }

  function Add(u: Usage, v: Usage): Usage {
    Sum(NormalizedUsage(u), NormalizedUsage(v))
  }

  /** The field-wise clamped sum of two normalised usages. */
  function Sum(a: Usage, b: Usage): Usage
    requires Consistent(a) && Consistent(b)
  {
    Usage(SaturatingTokenAdd(a.input, b.input),
          SaturatingTokenAdd(a.cached, b.cached), a.cachedReported || b.cachedReported,
          SaturatingTokenAdd(a.cacheWrite, b.cacheWrite), a.cacheWriteReported || b.cacheWriteReported,
          SaturatingTokenAdd(a.output, b.output),
          SaturatingTokenAdd(a.reasoning, b.reasoning),
          SaturatingTokenAdd(a.total, b.total))
  }

  /** A usage that normalisation leaves alone: counters in range, sub-counts within their totals. */
  predicate Consistent(u: Usage) {
    && 0 <= u.cached <= u.input && 0 <= u.cacheWrite <= u.input
    && 0 <= u.reasoning <= u.output
    && (u.cached > 0 ==> u.cachedReported) && (u.cacheWrite > 0 ==> u.cacheWriteReported)
    && Min(u.input + u.output, MAX_INT) <= u.total
  }

  /** `usageContains`: every counter of `total` covers the one of `least`. */
  predicate Contains(total: Usage, least: Usage) {
    && total.input >= least.input
    && total.cached >= least.cached
    && (least.cachedReported ==> total.cachedReported)
    && total.cacheWrite >= least.cacheWrite
    && (least.cacheWriteReported ==> total.cacheWriteReported)
    && total.output >= least.output
    && total.reasoning >= least.reasoning
    && total.total >= least.total
  }

  lemma NormalizedIffConsistent(u: Usage)
    ensures NormalizedUsage(u) == u <==> Consistent(u)
  {
    assert NormalizedUsage(u).total == Max(Max(0, u.total), Min(Max(0, u.input) + Max(0, u.output), MAX_INT));
  }

  lemma SumClosed(a: Usage, b: Usage)
    requires Consistent(a) && Consistent(b)
    ensures Consistent(Sum(a, b))
    ensures Contains(Sum(a, b), a) && Contains(Sum(a, b), b)
  {
  }

  /** Sums of usages are consistent again and cover both summands. */
  lemma AddClosed(u: Usage, v: Usage)
    ensures Consistent(Add(u, v))
    ensures Contains(Add(u, v), NormalizedUsage(u)) && Contains(Add(u, v), NormalizedUsage(v))
  {
    SumClosed(NormalizedUsage(u), NormalizedUsage(v));
  }

  lemma AddCommutative(u: Usage, v: Usage)
    ensures Add(u, v) == Add(v, u)
  {
  }

  lemma ClampedSumAssociative(x: GoInt, y: GoInt, z: GoInt)
    requires 0 <= x && 0 <= y && 0 <= z
    ensures SaturatingTokenAdd(SaturatingTokenAdd(x, y), z) == SaturatingTokenAdd(x, SaturatingTokenAdd(y, z))
  {
  }

  lemma SumAssociative(a: Usage, b: Usage, c: Usage)
    requires Consistent(a) && Consistent(b) && Consistent(c)
    requires Consistent(Sum(a, b)) && Consistent(Sum(b, c))
    ensures Sum(Sum(a, b), c) == Sum(a, Sum(b, c))
  {
    ClampedSumAssociative(a.input, b.input, c.input);
    ClampedSumAssociative(a.cached, b.cached, c.cached);
    ClampedSumAssociative(a.cacheWrite, b.cacheWrite, c.cacheWrite);
    ClampedSumAssociative(a.output, b.output, c.output);
    ClampedSumAssociative(a.reasoning, b.reasoning, c.reasoning);
    ClampedSumAssociative(a.total, b.total, c.total);
  }

  lemma AddAssociative(u: Usage, v: Usage, w: Usage)
    ensures Add(Add(u, v), w) == Add(u, Add(v, w))
  {
    AddClosed(u, v);
    AddClosed(v, w);
    NormalizedIffConsistent(Add(u, v));
    NormalizedIffConsistent(Add(v, w));
    SumAssociative(NormalizedUsage(u), NormalizedUsage(v), NormalizedUsage(w));
  }

  /** The zero usage is the unit on consistent values. */
  lemma AddZero(u: Usage)
    requires Consistent(u)
    ensures Add(u, ZERO) == u && Add(ZERO, u) == u
  {
    NormalizedIffConsistent(u);
  }

  lemma AddMonotone(u: Usage, v: Usage, w: Usage)
    requires Consistent(u) && Consistent(v) && Contains(u, v)
    ensures Contains(Add(u, w), Add(v, w))
  {
    NormalizedIffConsistent(u);
    NormalizedIffConsistent(v);
  }

  lemma ContainsTransitive(u: Usage, v: Usage, w: Usage)
    requires Contains(u, v) && Contains(v, w)
    ensures Contains(u, w)
  {
  }

  /** Away from saturation the total is a plain sum. */
  lemma AddTotal(u: Usage, v: Usage)
    requires Consistent(u) && Consistent(v)
    ensures Add(u, v).total == Min(u.total + v.total, MAX_INT)
  {
    NormalizedIffConsistent(u);
    NormalizedIffConsistent(v);
  }

  /** Every counter of a sum is the clamped sum of the counters as they are normalised, and
      a count is reported as soon as one side reports it. */
  lemma AddCounts(u: Usage, v: Usage)
    ensures var a, b, sum := NormalizedUsage(u), NormalizedUsage(v), Add(u, v);
      && sum.input == Min(a.input + b.input, MAX_INT) && sum.output == Min(a.output + b.output, MAX_INT)
      && sum.cached == Min(a.cached + b.cached, MAX_INT) && sum.cacheWrite == Min(a.cacheWrite + b.cacheWrite, MAX_INT)
      && sum.reasoning == Min(a.reasoning + b.reasoning, MAX_INT) && sum.total == Min(a.total + b.total, MAX_INT)
      && (sum.cachedReported <==> u.cachedReported || v.cachedReported || sum.cached > 0)
      && (sum.cacheWriteReported <==> u.cacheWriteReported || v.cacheWriteReported || sum.cacheWrite > 0)
  {
  }

  function Distance(a: int, b: int): nat { if a < b then b - a else a - b }

  /** Normalising takes the nearest consistent counters: first the main ones, then those
      that must stay within them, and the least total that is not below the reported one. */
  lemma NormalizedNearest(u: Usage, w: Usage)
    requires Consistent(w)
    ensures var n := NormalizedUsage(u);
      && Distance(n.input, u.input) <= Distance(w.input, u.input)
      && Distance(n.output, u.output) <= Distance(w.output, u.output)
      && (w.input == n.input ==>
            && Distance(n.cached, u.cached) <= Distance(w.cached, u.cached)
            && Distance(n.cacheWrite, u.cacheWrite) <= Distance(w.cacheWrite, u.cacheWrite))
      && (w.output == n.output ==> Distance(n.reasoning, u.reasoning) <= Distance(w.reasoning, u.reasoning))
      && (w.input == n.input && w.output == n.output && w.total >= u.total ==> u.total <= n.total <= w.total)
  {
    assert NormalizedUsage(u).total == Max(Max(0, u.total), Min(Max(0, u.input) + Max(0, u.output), MAX_INT));
  }
}
