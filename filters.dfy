/** Boundary padding and unpadding around the FIR filter, and the filter's
    group-delay arithmetic and axis rule. Arrays are numpy arrays of one or
    two dimensions; padding works along the last axis of either. */
module Filters {
  import opened Wrappers

  /** The filter record: number of taps, cutoff, number of samples added at
      each boundary, and the sample frequency, which the constructor leaves
      at zero for the caller to fill in. */
  datatype FilterConfiguration =
    FilterConfiguration(order: int, cutoff: real, appendage: int, sampleFrequency: real)

  /** The record as its constructor builds it. */
  function NewFilterConfiguration(order: int, cutoff: real, appendage: int): (c: FilterConfiguration)
    ensures c.order == order && c.cutoff == cutoff && c.appendage == appendage
    ensures c.sampleFrequency == 0.0
  {
    FilterConfiguration(order, cutoff, appendage, 0.0)
  }

  /** The exceptions the modelled operations raise. */
  datatype FilterError =
    | EmptyAxis            // taking sample 0 or -1 of an empty axis (IndexError)
    | NegativeRepeat       // repeating a sample a negative number of times (ValueError)
    | ZeroSampleFrequency  // dividing the delay by a sample frequency of zero (ZeroDivisionError)

  /** A numpy array of one dimension, or of two: `rows`, each holding `cols`
      samples. The column count is kept apart so that an array with no rows
      still has a width. */
  datatype NdArray<T> = Vector(items: seq<T>) | Matrix(rows: seq<seq<T>>, cols: nat)
  {
    predicate Rectangular() {
      Matrix? ==> forall i :: 0 <= i < |rows| ==> |rows[i]| == cols
    }

    /** The length of the axis that is padded, unpadded and filtered: axis 0
        of a vector, axis 1 of a matrix. */
    function AxisLength(): nat {
      if Vector? then |items| else cols
    }

    /** Taking the first or last sample along the axis fails: numpy refuses
        a take from an empty axis only when the result would hold samples,
        that is for an empty vector or for a matrix with rows but no
        columns. A matrix with no rows yields an empty take. */
    predicate NoEdgeSample() {
      if Vector? then |items| == 0 else |rows| > 0 && cols == 0
    }
  }

  function Max(a: int, b: int): int {
    if a < b then b else a
  }

  function Min(a: int, b: int): int {
    if a < b then a else b
  }

  function Repeat<T>(x: T, n: nat): (r: seq<T>)
    ensures |r| == n && forall i :: 0 <= i < n ==> r[i] == x
  {
    seq(n, _ => x)
  }

  // ---------------------------------------------------------------------
  // add_appendage

  /** One row with `a` copies of its first sample in front and `a` copies of
      its last sample behind. */
  function PadEdges<T>(s: seq<T>, a: nat): (r: seq<T>)
    requires |s| > 0
    ensures |r| == |s| + 2 * a
    ensures forall i :: 0 <= i < a ==> r[i] == s[0]
    ensures r[a .. a + |s|] == s
    ensures forall i :: a + |s| <= i < |r| ==> r[i] == s[|s| - 1]
  {
    Repeat(s[0], a) + s + Repeat(s[|s| - 1], a)
  }

  /** Pads a vector, or every row of a matrix, with `appendage` copies of its
      own first and last sample. Taking those samples fails when there is
      no sample to take, and repeating them fails for a negative count; a
      matrix with no rows is padded to a wider matrix with no rows. */
  function AddAppendage<T>(data: NdArray<T>, config: FilterConfiguration): (r: Result<NdArray<T>, FilterError>)
    requires data.Rectangular()
    ensures r.Ok? <==> !data.NoEdgeSample() && config.appendage >= 0
    ensures data.NoEdgeSample() ==> r == Err(EmptyAxis)
    ensures !data.NoEdgeSample() && config.appendage < 0 ==> r == Err(NegativeRepeat)
    ensures r.Ok? ==> r.value.Rectangular() && r.value.Vector? == data.Vector?
    ensures r.Ok? ==> r.value.AxisLength() == data.AxisLength() + 2 * config.appendage
    ensures r.Ok? && data.Vector? ==> r.value.items == PadEdges(data.items, config.appendage)
    ensures r.Ok? && data.Matrix? ==>
      |r.value.rows| == |data.rows| &&
      forall i :: 0 <= i < |data.rows| ==> r.value.rows[i] == PadEdges(data.rows[i], config.appendage)
  {
    if data.NoEdgeSample() then Err(EmptyAxis)
    else if config.appendage < 0 then Err(NegativeRepeat)
    else match data
      case Vector(items) => Ok(Vector(PadEdges(items, config.appendage)))
      case Matrix(rows, cols) =>
        Ok(Matrix(seq(|rows|, i requires 0 <= i < |rows| => PadEdges(rows[i], config.appendage)),
                  cols + 2 * config.appendage))
  }

  /** A matrix with no rows is not refused for want of an edge sample: it
      becomes a matrix with no rows that is 2a wider, and only a negative
      count fails, in the repeat. */
  lemma NoRowsMatrixPads<T>(cols: nat, config: FilterConfiguration)
    ensures AddAppendage<T>(Matrix([], cols), config) ==
      if config.appendage >= 0 then Ok(Matrix([], cols + 2 * config.appendage))
      else Err(NegativeRepeat)
  {
  }

  // ---------------------------------------------------------------------
  // remove_appendage

  /** Where the slice bound `n` lands in a list of length `len`: a negative
      bound counts from the end, and the result is clipped to [0, len]. */
  function SliceBound(n: int, len: nat): (b: nat)
    ensures b <= len
  {
    if n < 0 then Max(0, len + n) else Min(n, len)
  }

  /** The list of the positions 0, 1, ..., n - 1. */
  function Range(n: nat): (r: seq<int>)
    ensures |r| == n && forall i :: 0 <= i < n ==> r[i] == i
  {
    seq(n, i => i)
  }

  /** `indices[:a] + indices[-a:]` where `indices` lists the positions of an
      axis of length `len`. */
  function AppendageIndices(len: nat, a: int): seq<int> {
    Range(len)[..SliceBound(a, len)] + Range(len)[SliceBound(-a, len)..]
  }

  /** Deleting positions along one axis: the samples whose position is not
      listed, in their original order. */
  function Delete<T>(s: seq<T>, indices: seq<int>): (r: seq<T>)
    ensures |r| <= |s|
    ensures forall x :: x in r ==> x in s
  {
    if |s| == 0 then []
    else Delete(s[..|s| - 1], indices) + (if |s| - 1 in indices then [] else [s[|s| - 1]])
  }

  /** Deletes the positions that `indices[:a] + indices[-a:]` lists, along
      axis 0 of a vector or axis 1 of a matrix. For every appendage, negative
      and zero included, what is left is the window [KeptStart, KeptEnd) of
      the vector or of every row, and the result stays rectangular. */
  function RemoveAppendage<T>(data: NdArray<T>, config: FilterConfiguration): (r: NdArray<T>)
    ensures data.Rectangular() ==>
      var lo, hi := KeptStart(data.AxisLength(), config.appendage), KeptEnd(data.AxisLength(), config.appendage);
      && r.Rectangular()
      && r.Vector? == data.Vector?
      && r.AxisLength() == hi - lo
      && (data.Vector? ==> r.items == data.items[lo .. hi])
      && (data.Matrix? ==>
            |r.rows| == |data.rows| &&
            forall i :: 0 <= i < |data.rows| ==> r.rows[i] == data.rows[i][lo .. hi])
  {
    var a := config.appendage;
    var indices := AppendageIndices(data.AxisLength(), a);
    match data
    case Vector(items) =>
      DeleteAppendage(items, a);
      Vector(Delete(items, indices))
    case Matrix(rows, cols) =>
      DeleteAppendage(Range(cols), a);
      DeleteAppendageRows(rows, a);
      Matrix(seq(|rows|, i requires 0 <= i < |rows| => Delete(rows[i], indices)),
             |Delete(Range(cols), indices)|)
  }

  /** The first position `remove_appendage` keeps on an axis of length `len`. */
  function KeptStart(len: nat, a: int): nat {
    SliceBound(a, len)
  }

  /** One past the last position `remove_appendage` keeps; the kept positions
      are empty when this equals `KeptStart`. */
  function KeptEnd(len: nat, a: int): (e: nat)
    ensures KeptStart(len, a) <= e <= len
  {
    Max(SliceBound(a, len), SliceBound(-a, len))
  }

  /** A position is listed for deletion exactly when it falls before the
      prefix bound or at or after the suffix bound. */
  lemma AppendageIndicesMembership(len: nat, a: int, i: int)
    ensures i in AppendageIndices(len, a) <==>
      0 <= i < len && (i < SliceBound(a, len) || SliceBound(-a, len) <= i)
  {
    var lo, hi := SliceBound(a, len), SliceBound(-a, len);
    var front, back := Range(len)[..lo], Range(len)[hi..];
    assert AppendageIndices(len, a) == front + back;
    if 0 <= i < len && i < lo {
      assert front[i] == i;
    }
    if 0 <= i < len && hi <= i {
      assert back[i - hi] == i;
    }
  }

  /** Deleting every position outside the window [lo, hi) leaves the window. */
  lemma {:induction false} DeleteOutsideWindow<T>(s: seq<T>, indices: seq<int>, lo: nat, hi: nat)
    requires lo <= hi
    requires forall i :: 0 <= i < |s| ==> (i in indices <==> i < lo || hi <= i)
    ensures Delete(s, indices) == s[Min(lo, |s|) .. Min(hi, |s|)]
  {
    if |s| > 0 {
      var n := |s| - 1;
      var init := s[..n];
      forall i | 0 <= i < |init|
        ensures i in indices <==> i < lo || hi <= i
      {
      }
      DeleteOutsideWindow(init, indices, lo, hi);
      WindowStep(s, Delete(init, indices), lo, hi, n in indices);
    }
  }

  /** The window [lo, hi) of `s` is the window of `s` without its last
      element, followed by that element when its position is inside. */
  lemma WindowStep<T>(s: seq<T>, kept: seq<T>, lo: nat, hi: nat, dropLast: bool)
    requires |s| > 0 && lo <= hi
    requires kept == s[..|s| - 1][Min(lo, |s| - 1) .. Min(hi, |s| - 1)]
    requires dropLast <==> |s| - 1 < lo || hi <= |s| - 1
    ensures kept + (if dropLast then [] else [s[|s| - 1]]) == s[Min(lo, |s|) .. Min(hi, |s|)]
  {
    var n := |s| - 1;
    if n < lo {
      assert Min(lo, n) == n && Min(hi, n) == n;
      assert Min(lo, |s|) == |s| && Min(hi, |s|) == |s|;
    } else if hi <= n {
      assert Min(lo, n) == lo && Min(hi, n) == hi;
      assert Min(lo, |s|) == lo && Min(hi, |s|) == hi;
    } else {
      assert Min(lo, n) == lo && Min(hi, n) == n;
      assert Min(lo, |s|) == lo && Min(hi, |s|) == |s|;
      assert s[lo .. |s|] == s[..n][lo .. n] + [s[n]];
    }
  }

  /** On one axis, `remove_appendage` keeps exactly the positions from
      `KeptStart` up to `KeptEnd`. */
  lemma DeleteAppendage<T>(s: seq<T>, a: int)
    ensures Delete(s, AppendageIndices(|s|, a)) == s[KeptStart(|s|, a) .. KeptEnd(|s|, a)]
  {
    var lo, hi := KeptStart(|s|, a), KeptEnd(|s|, a);
    forall i | 0 <= i < |s|
      ensures i in AppendageIndices(|s|, a) <==> i < lo || hi <= i
    {
      AppendageIndicesMembership(|s|, a, i);
    }
    DeleteOutsideWindow(s, AppendageIndices(|s|, a), lo, hi);
  }

  /** `DeleteAppendage` for every row of a matrix. */
  lemma DeleteAppendageRows<T>(rows: seq<seq<T>>, a: int)
    ensures forall i :: 0 <= i < |rows| ==>
      Delete(rows[i], AppendageIndices(|rows[i]|, a)) == rows[i][KeptStart(|rows[i]|, a) .. KeptEnd(|rows[i]|, a)]
  {
    forall i | 0 <= i < |rows|
      ensures Delete(rows[i], AppendageIndices(|rows[i]|, a)) == rows[i][KeptStart(|rows[i]|, a) .. KeptEnd(|rows[i]|, a)]
    {
      DeleteAppendage(rows[i], a);
    }
  }

  /** For a positive appendage, `remove_appendage` keeps max(0, L - 2a)
      samples along the axis, and when 2a <= L those are the samples from a
      up to L - a. */
  lemma RemoveAppendageKeepsMiddle<T>(data: NdArray<T>, config: FilterConfiguration)
    requires data.Rectangular() && config.appendage >= 1
    ensures var r := RemoveAppendage(data, config);
      var a, len := config.appendage, data.AxisLength();
      && r.AxisLength() == Max(0, len - 2 * a)
      && (2 * a <= len && data.Vector? ==> r.items == data.items[a .. len - a])
      && (2 * a <= len && data.Matrix? ==>
            forall i :: 0 <= i < |data.rows| ==> r.rows[i] == data.rows[i][a .. len - a])
  {
  }

  /** With an appendage of zero, `indices[-0:]` is the whole list, so every
      sample along the axis is deleted. */
  lemma RemoveAppendageZeroDeletesAll<T>(data: NdArray<T>, config: FilterConfiguration)
    requires data.Rectangular() && config.appendage == 0
    ensures RemoveAppendage(data, config).AxisLength() == 0
    ensures data.Vector? ==> RemoveAppendage(data, config).items == []
    ensures data.Matrix? ==>
      var r := RemoveAppendage(data, config);
      |r.rows| == |data.rows| && forall i :: 0 <= i < |r.rows| ==> r.rows[i] == []
  {
  }

  /** Unpadding undoes padding for every appendage of at least one. */
  lemma PadUnpadRoundTrip<T>(data: NdArray<T>, config: FilterConfiguration)
    requires data.Rectangular() && config.appendage >= 1
    requires AddAppendage(data, config).Ok?
    ensures RemoveAppendage(AddAppendage(data, config).value, config) == data
  {
    var a := config.appendage;
    var padded := AddAppendage(data, config).value;
    RemoveAppendageKeepsMiddle(padded, config);
    match data
    case Vector(items) =>
    case Matrix(rows, cols) =>
      var r := RemoveAppendage(padded, config);
      assert |r.rows| == |rows|;
      forall i | 0 <= i < |rows|
        ensures r.rows[i] == rows[i]
      {
        assert padded.rows[i] == PadEdges(rows[i], a);
      }
  }

  /** As written, padding and then unpadding with an appendage of zero does
      not give the data back: everything along the axis is gone. */
  lemma RoundTripFailsWithZeroAppendage<T>(data: NdArray<T>, config: FilterConfiguration)
    requires data.Rectangular() && data.AxisLength() > 0 && config.appendage == 0
    ensures AddAppendage(data, config).Ok?
    ensures RemoveAppendage(AddAppendage(data, config).value, config) != data
  {
    var padded := AddAppendage(data, config).value;
    RemoveAppendageZeroDeletesAll(padded, config);
  }

  /** `remove_appendage` as evidently intended: an appendage of zero removes
      nothing, and any other appendage behaves as written. */
  function RemoveAppendageIntended<T>(data: NdArray<T>, config: FilterConfiguration): NdArray<T> {
    if config.appendage == 0 then data else RemoveAppendage(data, config)
  }

  /** The intended unpadding undoes padding for every appendage that padding
      accepts, zero included. */
  lemma IntendedPadUnpadRoundTrip<T>(data: NdArray<T>, config: FilterConfiguration)
    requires data.Rectangular()
    requires AddAppendage(data, config).Ok?
    ensures RemoveAppendageIntended(AddAppendage(data, config).value, config) == data
  {
    var padded := AddAppendage(data, config).value;
    if config.appendage == 0 {
      match data
      case Vector(items) =>
        assert padded.items == items;
      case Matrix(rows, cols) =>
        forall i | 0 <= i < |rows|
          ensures padded.rows[i] == rows[i]
        {
          assert padded.rows[i] == PadEdges(rows[i], 0);
        }
        assert padded.rows == rows;
    } else {
      PadUnpadRoundTrip(data, config);
    }
  }

  /** Padding, running any length-preserving filter over the padded samples,
      and the corrected unpadding restore the original length for every
      appendage padding accepts; the unpadding as written does so for an
      appendage of at least one. */
  lemma PadFilterUnpadLength(samples: seq<real>, filtered: seq<real>, config: FilterConfiguration)
    requires |samples| > 0 && config.appendage >= 0
    requires |filtered| == |AddAppendage(Vector(samples), config).value.items|
    ensures |RemoveAppendageIntended(Vector(filtered), config).items| == |samples|
    ensures config.appendage >= 1 ==> |RemoveAppendage(Vector(filtered), config).items| == |samples|
  {
    if config.appendage > 0 {
      RemoveAppendageKeepsMiddle(Vector(filtered), config);
    }
  }

  // ---------------------------------------------------------------------
  // FIR_filter: axis rule and group delay

  /** What `FIR_filter` decides besides the filtered samples: the axis it
      filters along and the time delay it reports. */
  datatype FirOutcome = FirOutcome(axis: int, delay: real)

  /** A vector is always filtered along axis -1 whatever axis the caller
      passes; the delay is half the filter length minus one sample, in
      seconds, and cannot be computed while the sample frequency is zero.
      The filter design runs before the delay and has its own checks on the
      cutoff and the sample frequency, which are not modelled: a zero
      sample frequency is refused there already. */
  function FirFilter<T>(data: NdArray<T>, config: FilterConfiguration, axis: int): (r: Result<FirOutcome, FilterError>)
    ensures r.Ok? <==> config.sampleFrequency != 0.0
    ensures r.Err? ==> r.error == ZeroSampleFrequency
    ensures r.Ok? ==> r.value.delay * config.sampleFrequency == 0.5 * (config.order - 1) as real
    ensures r.Ok? && data.Vector? ==> r.value.axis == -1
    ensures r.Ok? && data.Matrix? ==> r.value.axis == axis
  {
    var effectiveAxis := if data.Vector? then -1 else axis;
    if config.sampleFrequency == 0.0 then Err(ZeroSampleFrequency)
    else Ok(FirOutcome(effectiveAxis, 0.5 * (config.order - 1) as real / config.sampleFrequency))
  }

  /** A configuration straight from the constructor cannot be used to filter. */
  lemma FreshConfigurationCannotFilter<T>(data: NdArray<T>, order: int, cutoff: real, appendage: int, axis: int)
    ensures FirFilter(data, NewFilterConfiguration(order, cutoff, appendage), axis).Err?
  {
  }

  /** For a vector the caller's axis makes no difference. */
  lemma VectorAxisIgnored<T>(items: seq<T>, config: FilterConfiguration, axis1: int, axis2: int)
    ensures FirFilter(Vector(items), config, axis1) == FirFilter(Vector(items), config, axis2)
  {
  }

  /** An 8-tap filter at 100 Hz delays the signal by 0.035 s. */
  lemma EightTapDelay<T>(data: NdArray<T>, cutoff: real, appendage: int, axis: int)
    ensures FirFilter(data, FilterConfiguration(8, cutoff, appendage, 100.0), axis) == Ok(FirOutcome(if data.Vector? then -1 else axis, 0.035))
  {
  }
}
