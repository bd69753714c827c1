/**
 * The console progress bar used while a video file is read. Only the decision
 * logic is modelled: whether a call draws the bar, skips it, or reports an
 * out-of-range index. What a drawn bar looks like is not part of the model.
 */
module Progress {
  import Text

  /** What one call of `Progressed` does. */
  datatype Report = Skipped | Drawn(idx: nat) | OutOfBounds(idx: nat)

  /**
   * The decision `Progressed(idx)` takes for a bar of `n` steps updated with
   * frequency `freq`. The divisor `n / freq` is only evaluated below `n`,
   * and there it must not be zero (the source would divide by zero).
   */
  function Decide(n: nat, freq: nat, idx: nat): (r: Report)
    requires idx < n ==> freq > 0 && n / freq > 0
    ensures idx > n <==> r == OutOfBounds(idx)
    ensures idx == n ==> r == Drawn(idx)
    ensures idx < n ==> (r == Drawn(idx) <==> idx % (n / freq) == 0)
    ensures r.Skipped? || r.idx == idx
  {
    if idx > n then OutOfBounds(idx)
    else if idx != n && idx % (n / freq) != 0 then Skipped
    else Drawn(idx)
  }

  const BoundsPrefix: string := "PROGRESS_BAR_EXCEPTION: _idx ("
  const BoundsMiddle: string := ") went out of bounds, greater than n ("
  const BoundsEnd: string := ")."

  /** The message written to standard error for an out-of-range index: it names the index and the size. */
  function OutOfBoundsMessage(idx: nat, n: nat): (m: string)
    ensures |m| > |BoundsPrefix| && m[..|BoundsPrefix|] == BoundsPrefix
    // the number right after the prefix reads back as the index
    ensures Text.Atoi(m[|BoundsPrefix|..]) == idx
    // it ends with the size in decimal and the closing text
    ensures |m| >= |BoundsEnd| + |Text.NatToString(n)| && m[|m| - |BoundsEnd| - |Text.NatToString(n)|..] == Text.NatToString(n) + BoundsEnd
    // the whole text: prefix, index, the words between, size, closing text
    ensures FiveParts(m, BoundsPrefix, Text.NatToString(idx), BoundsMiddle, Text.NatToString(n), BoundsEnd)
  {
    Framed(BoundsPrefix, idx, BoundsMiddle, Text.NatToString(n), BoundsEnd);
    BoundsPrefix + (Text.NatToString(idx) + (BoundsMiddle + (Text.NatToString(n) + BoundsEnd)))
  }

  /** A number in decimal between two texts, the second not starting with a digit, reads back from its place. */
  lemma Framed(p: string, v: nat, mid: string, k: string, e: string)
    requires mid != [] && !Text.IsDigit(mid[0])
    ensures var m := p + (Text.NatToString(v) + (mid + (k + e)));
      && |m| > |p| && m[..|p|] == p
      && Text.Atoi(m[|p|..]) == v
      && |m| >= |e| + |k| && m[|m| - |e| - |k|..] == k + e
      && FiveParts(m, p, Text.NatToString(v), mid, k, e)
  {
    Pieces(p, Text.NatToString(v), mid, k, e);
    ReadsBack(v, mid + (k + e));
  }

  /** `m` is `a`, `b`, `c`, `d` and `e`, one after the other. */
  ghost predicate FiveParts<T>(m: seq<T>, a: seq<T>, b: seq<T>, c: seq<T>, d: seq<T>, e: seq<T>) {
    && |m| == |a| + |b| + |c| + |d| + |e|
    && m[..|a|] == a
    && m[|a|..|a| + |b|] == b
    && m[|a| + |b|..|m| - |e| - |d|] == c
    && m[|m| - |e| - |d|..|m| - |e|] == d
    && m[|m| - |e|..] == e
  }

  lemma Pieces<T>(a: seq<T>, b: seq<T>, c: seq<T>, d: seq<T>, e: seq<T>)
    ensures var m := a + (b + (c + (d + e)));
      && FiveParts(m, a, b, c, d, e)
      && m[|a|..] == b + (c + (d + e))
      && m[|m| - |e| - |d|..] == d + e
  {
    var m := a + (b + (c + (d + e)));
    assert m[|a|..] == b + (c + (d + e));
    assert (b + (c + (d + e)))[|b|..] == c + (d + e);
    assert (b + (c + (d + e)))[|b| + |c|..] == d + e;
    assert (d + e)[..|d|] == d;
  }

  /** A number in decimal followed by text that does not start with a digit reads back as that number. */
  lemma ReadsBack(v: nat, rest: string)
    requires rest == [] || !Text.IsDigit(rest[0])
    ensures Text.Atoi(Text.NatToString(v) + rest) == v
  {
    assert Text.IntToString(v) == Text.NatToString(v);
    Text.AtoiOfNumber(v, rest);
  }

  class ProgressBar {
    var n: nat
    var frequencyUpdate: nat
    const description: string
    /** Indices for which the bar was drawn, in order. */
    var drawn: seq<nat>
    /** Lines written to standard error. */
    var errors: seq<string>

    /** The frequency never exceeds the number of steps. */
    ghost predicate Valid()
      reads this
    {
      frequencyUpdate <= n
    }

    constructor (total: nat, desc: string)
      ensures Valid()
      ensures n == total && frequencyUpdate == total && description == desc
      ensures drawn == [] && errors == []
    {
      n := total;
      frequencyUpdate := total;
      description := desc;
      drawn := [];
      errors := [];
    }

    method SetFrequencyUpdate(f: nat)
      requires Valid()
      modifies this`frequencyUpdate
      ensures Valid()
      ensures frequencyUpdate == if f > n then n else f
    {
      if f > n {
        frequencyUpdate := n;
      } else {
        frequencyUpdate := f;
      }
    }

    /**
     * Draws the bar when `Decide` says so, writes the out-of-bounds message
     * instead of propagating the error, and otherwise does nothing.
     */
    method Progressed(idx: nat)
      requires Valid()
      requires idx < n ==> frequencyUpdate > 0
      modifies this`drawn, this`errors
      ensures Valid()
      ensures idx < n ==> n / frequencyUpdate > 0
      ensures drawn == old(drawn) + (if Decide(n, frequencyUpdate, idx).Drawn? then [idx] else [])
      ensures errors == old(errors) + (if idx > n then [OutOfBoundsMessage(idx, n)] else [])
    {
      if idx > n {
        errors := errors + [OutOfBoundsMessage(idx, n)];
        return;
      }
      if idx != n && idx % (n / frequencyUpdate) != 0 {
        return;
      }
      drawn := drawn + [idx];
    }
  }

  /** With the default frequency (the number of steps) every index in range is drawn. */
  lemma {:induction false} DefaultFrequencyDrawsAll(n: nat, idx: nat)
    requires idx <= n
    ensures Decide(n, n, idx) == Drawn(idx)
  {
    if idx < n {
      assert n / n == 1;
    }
  }

  /**
   * The throttle: two different indices below `n` that are both drawn lie at
   * least `n / freq` apart.
   */
  lemma {:induction false} DrawnIndicesSpaced(n: nat, freq: nat, i: nat, j: nat)
    requires 0 < freq <= n && i < j < n
    requires Decide(n, freq, i).Drawn? && Decide(n, freq, j).Drawn?
    ensures j - i >= n / freq
  {
    var d := n / freq;
    assert d >= 1;
    var qi, qj := i / d, j / d;
    assert i == d * qi && j == d * qj;
    assert qi < qj by {
      if qj <= qi {
        MulMonotone(d, qj, qi);
      }
    }
    MulMonotone(d, qi + 1, qj);
    assert d * (qi + 1) == d * qi + d;
  }

  lemma MulMonotone(d: nat, a: nat, b: nat)
    requires a <= b
    ensures d * a <= d * b
  {
  }
}
