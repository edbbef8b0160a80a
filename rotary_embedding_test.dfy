/**
 * The shape rules of the rotary-embedding test script
 * (operatorspy/tests/rotary_embedding.py): how the reference computation
 * broadcasts the frequency table over the input, how many frequencies it
 * uses, the repeat-interleave that widens them to the head dimension, and
 * the shape of the sin/cos tables handed to the library. Only shapes and
 * index sequences are modelled; the floating-point values are not.
 */
module RotaryEmbeddingTest {
  import opened Wrappers
  import opened Operators
  import opened PythonErrors

  /** `torch.arange(0, stop, step)` for a positive step: the multiples of step below stop. */
  function Arange(stop: int, step: int): (r: seq<int>)
    requires step > 0
    ensures forall i :: 0 <= i < |r| ==> r[i] == i * step && 0 <= r[i] < stop
    ensures stop <= 0 ==> |r| == 0
    ensures stop > 0 ==> (|r| - 1) * step < stop <= |r| * step
  {
    var n := if stop <= 0 then 0 else (stop + step - 1) / step;
    if stop > 0 then
      CeilDivBounds(stop, step);
      assert forall i :: 0 <= i < n ==> i * step <= (n - 1) * step by {
        forall i | 0 <= i < n
          ensures i * step <= (n - 1) * step
        {
          MulMonotone(i, n - 1, step);
        }
      }
      seq(n, i => i * step)
    else
      []
  }

  /** Rounding stop / step up gives the least count of steps that reaches stop. */
  lemma CeilDivBounds(stop: int, step: int)
    requires stop > 0 && step > 0
    ensures var n := (stop + step - 1) / step; n >= 1 && (n - 1) * step < stop <= n * step
  {
    var a := stop + step - 1;
    var n := a / step;
    assert a == n * step + a % step;
    assert (n - 1) * step == n * step - step;
    if n < 1 {
      MulMonotone(n, 0, step);
    }
  }

  lemma MulMonotone(a: int, b: int, c: int)
    requires a <= b && c >= 0
    ensures a * c <= b * c
  {
    assert b * c - a * c == (b - a) * c;
  }

  /** Python's `s[:n]` for a non-negative n: the first n entries, or all of them. */
  function PrefixSlice<T>(s: seq<T>, n: nat): (r: seq<T>)
    ensures |r| == if n <= |s| then n else |s|
    ensures forall i :: 0 <= i < |r| ==> r[i] == s[i]
  {
    if n <= |s| then s[..n] else s
  }

  /**
   * `torch.arange(0, dh, 2)[: (dh // 2)]`, the exponents of the frequencies:
   * exactly dh // 2 of them, the even numbers below dh.
   */
  function FrequencyExponents(dh: nat): (r: seq<int>)
    ensures |r| == dh / 2
    ensures forall i :: 0 <= i < |r| ==> r[i] == 2 * i && r[i] < dh
  {
    PrefixSlice(Arange(dh, 2), dh / 2)
  }

  /** `torch.repeat_interleave(s, repeats=2)`: every entry twice in a row. */
  function RepeatInterleave<T>(s: seq<T>): (r: seq<T>)
    ensures |r| == 2 * |s|
    ensures forall i :: 0 <= i < |s| ==> r[2 * i] == s[i] && r[2 * i + 1] == s[i]
  {
    if |s| == 0 then [] else [s[0], s[0]] + RepeatInterleave(s[1..])
  }

  /** The entries at even positions. */
  function EvenEntries<T>(r: seq<T>): (e: seq<T>)
    ensures |e| == (|r| + 1) / 2
    ensures forall i :: 0 <= i < |e| ==> e[i] == r[2 * i]
  {
    seq((|r| + 1) / 2, i requires 0 <= i < (|r| + 1) / 2 => r[2 * i])
  }

  /** Keeping every other entry undoes the repeat-interleave, so no entry is lost or reordered. */
  lemma EvenEntriesUndoRepeat<T>(s: seq<T>)
    ensures EvenEntries(RepeatInterleave(s)) == s
  {
  }

  /** `torch.outer(a, b).shape`. */
  function OuterShape<S, T>(a: seq<S>, b: seq<T>): seq<int>
  {
    [|a|, |b|]
  }

  /**
   * The shape of the tables `sin_cos_table(max_seq_len, dim)` returns: one
   * row per position, and one column per repeated frequency, i.e. dim
   * rounded down to even.
   */
  function SinCosTableShape(maxSeqLen: nat, dim: nat): (r: seq<int>)
    ensures r == [maxSeqLen, dim - dim % 2]
  {
    var pos := Arange(maxSeqLen, 1);
    var freqs := RepeatInterleave(FrequencyExponents(dim));
    OuterShape(pos, freqs)
  }

  /**
   * `reshape_for_broadcast(freqs_cis, x)`: AssertionError unless x has rank
   * at least 2 and freqs_cis has shape (x.shape[0], x.shape[-1]); otherwise
   * the view of freqs_cis with x's rank that keeps axis 0 and the last axis
   * and is 1 elsewhere. The view keeps the element count, so it never
   * raises.
   */
  function ReshapeForBroadcast(freqsShape: seq<int>, xShape: seq<int>): (r: Result<seq<int>, PyError>)
    ensures r.Ok? <==> |xShape| >= 2 && freqsShape == [xShape[0], xShape[|xShape| - 1]]
    ensures r.Err? ==> r.error == AssertionError
    ensures r.Ok? ==>
      && |r.value| == |xShape|
      && r.value[0] == xShape[0] && r.value[|xShape| - 1] == xShape[|xShape| - 1]
      && (forall i :: 0 < i < |xShape| - 1 ==> r.value[i] == 1)
      && Product(r.value) == Product(freqsShape)
  {
    var ndim := |xShape|;
    if !(0 <= 1 < ndim) then Err(AssertionError)
    else if freqsShape != [xShape[0], xShape[ndim - 1]] then Err(AssertionError)
    else
      var shape := [xShape[0]] + seq(ndim - 2, _ => 1) + [xShape[ndim - 1]];
      BroadcastShapeKeepsCount(shape);
      Ok(shape)
  }

  /** A shape that is 1 between its first and last axis holds first × last elements. */
  lemma BroadcastShapeKeepsCount(shape: seq<int>)
    requires |shape| >= 2
    requires forall i :: 0 < i < |shape| - 1 ==> shape[i] == 1
    ensures Product(shape) == Product([shape[0], shape[|shape| - 1]])
  {
    OnesThenLastProduct(shape[1..]);
    assert [shape[0], shape[|shape| - 1]][1..] == [shape[|shape| - 1]];
  }

  /** A sequence of ones followed by one last entry multiplies to that entry. */
  lemma OnesThenLastProduct(t: seq<int>)
    requires |t| >= 1
    requires forall i :: 0 <= i < |t| - 1 ==> t[i] == 1
    ensures Product(t) == t[|t| - 1]
  {
    var middle := t[..|t| - 1];
    assert t == middle + [t[|t| - 1]];
    ProductConcat(middle, [t[|t| - 1]]);
    AllOnesProduct(middle);
  }

  /**
   * `torch.view_as_complex(t.reshape(*t.shape[:-1], -1, 2))`: the last axis
   * is split into pairs, one complex number each; an odd last extent cannot
   * be split.
   */
  function ComplexViewShape(tShape: seq<int>): (r: Result<seq<int>, PyError>)
    requires |tShape| >= 1
    ensures r.Ok? <==> tShape[|tShape| - 1] % 2 == 0
    ensures r.Err? ==> r.error == RuntimeError
    ensures r.Ok? ==>
      |r.value| == |tShape| && r.value[..|tShape| - 1] == tShape[..|tShape| - 1] &&
      2 * r.value[|tShape| - 1] == tShape[|tShape| - 1]
  {
    var last := tShape[|tShape| - 1];
    if last % 2 != 0 then Err(RuntimeError) else Ok(tShape[..|tShape| - 1] + [last / 2])
  }

  /**
   * The reference computation of `rotary_embedding` on a (seq_len, heads,
   * head_dim) input with an even head_dim: the frequency table built from
   * the positions and dh // 2 frequencies broadcasts over the complex view of
   * t, with the heads axis set to 1.
   */
  lemma ReferenceShapesAgree(tShape: seq<nat>)
    requires |tShape| == 3 && tShape[2] % 2 == 0
    ensures var pos := Arange(tShape[0], 1);
            var freqsCis := OuterShape(pos, FrequencyExponents(tShape[2]));
            var tc := ComplexViewShape(tShape);
            && tc.Ok?
            && ReshapeForBroadcast(freqsCis, tc.value) == Ok([tShape[0], 1, tShape[2] / 2])
  {
    var tc := ComplexViewShape(tShape);
    assert tc.value == [tShape[0], tShape[1], tShape[2] / 2];
    var r := ReshapeForBroadcast(OuterShape(Arange(tShape[0], 1), FrequencyExponents(tShape[2])), tc.value);
    assert r.Ok?;
    assert r.value == [tShape[0], 1, tShape[2] / 2];
  }

  /**
   * The test builds its tables for twice the sequence length: every
   * position the test uses is a row of the table, and with an even head
   * dimension the table is exactly head_dim wide.
   */
  lemma TestTablesCoverPositions(tShape: seq<nat>)
    requires |tShape| == 3
    ensures var table := SinCosTableShape(tShape[0] * 2, tShape[2]);
            && table[0] == 2 * tShape[0]
            && (forall p :: p in Arange(tShape[0], 1) ==> 0 <= p < table[0])
            && (tShape[2] % 2 == 0 ==> table[1] == tShape[2])
  {
  }
}
