/**
 * The shape arithmetic and the call sequence of the average-pooling test
 * script (operatorspy/tests/avg_pool.py): the output shape it allocates y
 * with, the torch layer it compares against, and the order in which it
 * drives the library's four entry points. Python integers are unbounded, so
 * `int` models them exactly; `//` is Python's floor division.
 */
module AvgPoolTest {
  import opened Wrappers
  import opened PythonErrors

  /** `PROFILE`, `NUM_PRERUN`, `NUM_ITERATIONS`. */
  const PROFILE: bool := false
  const NUM_PRERUN: nat := 10
  const NUM_ITERATIONS: nat := 1000

  /** Python's `a // b`: the quotient rounded towards minus infinity. */
  function FloorDiv(a: int, b: int): (q: int)
    requires b != 0
    ensures b > 0 ==> q * b <= a < q * b + b
    ensures b < 0 ==> q * b + b < a <= q * b
  {
    if b > 0 then a / b else (-a) / (-b)
  }

  /** One spatial output extent: `(dim + 2 * p - k) // s + 1`. */
  function OutputExtent(dim: int, k: int, p: int, s: int): int
    requires s != 0
  {
    FloorDiv(dim + 2 * p - k, s) + 1
  }

  /**
   * With a positive stride, the extent is the number of windows of size k,
   * placed s apart from the start of the padded axis, that fit in it: the
   * last one ends inside the padded axis and one more would not.
   */
  lemma OutputExtentCountsWindows(dim: int, k: int, p: int, s: int)
    requires s > 0
    ensures var n := OutputExtent(dim, k, p, s);
            (n - 1) * s + k <= dim + 2 * p < n * s + k
  {
    var q := FloorDiv(dim + 2 * p - k, s);
    assert (q + 1 - 1) * s == q * s;
    assert (q + 1) * s == q * s + s;
  }

  /** Two lengths, four sequences: the length condition `inferShape` asserts. */
  predicate LengthsAgree(xShape: seq<int>, kernel: seq<int>, padding: seq<int>, strides: seq<int>)
  {
    |xShape| - 2 == |kernel| && |kernel| == |padding| && |padding| == |strides|
  }

  /**
   * What `inferShape` returns or raises: AssertionError when the lengths
   * disagree, ZeroDivisionError when some stride is 0, and otherwise x's
   * first two extents followed by one output extent per spatial axis.
   */
  function ExpectedShape(xShape: seq<int>, kernel: seq<int>, padding: seq<int>, strides: seq<int>)
    : (r: Result<seq<int>, PyError>)
    ensures r == Err(AssertionError) <==> !LengthsAgree(xShape, kernel, padding, strides)
    ensures r == Err(ZeroDivisionError) <==> LengthsAgree(xShape, kernel, padding, strides) && 0 in strides
    ensures r.Ok? <==> LengthsAgree(xShape, kernel, padding, strides) && 0 !in strides
    ensures r.Ok? ==> |r.value| == |xShape| && r.value[..2] == xShape[..2]
  {
    if !LengthsAgree(xShape, kernel, padding, strides) then Err(AssertionError)
    else if 0 in strides then Err(ZeroDivisionError)
    else
      Ok(xShape[..2] + seq(|strides|, i requires 0 <= i < |strides| =>
                                        OutputExtent(xShape[i + 2], kernel[i], padding[i], strides[i])))
  }

  /** `inferShape`: the loop over the zipped axes, appending one extent per axis. */
  method InferShape(xShape: seq<int>, kernel: seq<int>, padding: seq<int>, strides: seq<int>)
    returns (r: Result<seq<int>, PyError>)
    ensures r == ExpectedShape(xShape, kernel, padding, strides)
  {
    if !LengthsAgree(xShape, kernel, padding, strides) {
      return Err(AssertionError);
    }
    var inputShape := xShape[2..];
    var outputShape: seq<int> := [];
    var i := 0;
    while i < |inputShape|
      invariant 0 <= i <= |inputShape|
      invariant 0 !in strides[..i]
      invariant |outputShape| == i
      invariant forall j :: 0 <= j < i ==>
                  strides[j] != 0 && outputShape[j] == OutputExtent(inputShape[j], kernel[j], padding[j], strides[j])
    {
      if strides[i] == 0 {
        return Err(ZeroDivisionError);
      }
      outputShape := outputShape + [FloorDiv(inputShape[i] + 2 * padding[i] - kernel[i], strides[i]) + 1];
      assert strides[..i + 1] == strides[..i] + [strides[i]];
      i := i + 1;
    }
    assert strides[..i] == strides;
    assert outputShape == seq(|strides|, j requires 0 <= j < |strides| =>
                                           OutputExtent(xShape[j + 2], kernel[j], padding[j], strides[j]));
    return Ok(xShape[..2] + outputShape);
  }

  /** Each spatial extent of the result is the window count of its axis. */
  lemma ExpectedShapeSpatialExtents(xShape: seq<int>, kernel: seq<int>, padding: seq<int>, strides: seq<int>, i: int)
    requires ExpectedShape(xShape, kernel, padding, strides).Ok?
    requires 2 <= i < |xShape|
    ensures strides[i - 2] != 0
    ensures ExpectedShape(xShape, kernel, padding, strides).value[i] ==
              OutputExtent(xShape[i], kernel[i - 2], padding[i - 2], strides[i - 2])
  {
    assert strides[i - 2] in strides;
  }

  /** The three cases the script runs, with their expected output shapes. */
  lemma WorkedCases()
    ensures ExpectedShape([1, 1, 2, 2], [2, 2], [1, 1], [1, 1]) == Ok([1, 1, 3, 3])
    ensures ExpectedShape([32, 4, 224, 224], [3, 3], [1, 1], [2, 2]) == Ok([32, 4, 112, 112])
    ensures ExpectedShape([1, 1, 16, 16, 16], [5, 5, 5], [2, 2, 2], [2, 2, 2]) == Ok([1, 1, 8, 8, 8])
  {
    assert 0 !in [1, 1] && 0 !in [2, 2] && 0 !in [2, 2, 2];
    var a := ExpectedShape([1, 1, 2, 2], [2, 2], [1, 1], [1, 1]).value;
    assert OutputExtent(2, 2, 1, 1) == 3;
    assert a[..2] == [1, 1] && a[2] == 3 && a[3] == 3;
    assert a == [1, 1, 3, 3];
    var b := ExpectedShape([32, 4, 224, 224], [3, 3], [1, 1], [2, 2]).value;
    assert OutputExtent(224, 3, 1, 2) == 112;
    assert b[..2] == [32, 4] && b[2] == 112 && b[3] == 112;
    assert b == [32, 4, 112, 112];
    var c := ExpectedShape([1, 1, 16, 16, 16], [5, 5, 5], [2, 2, 2], [2, 2, 2]).value;
    assert OutputExtent(16, 5, 2, 2) == 8;
    assert c[..2] == [1, 1] && c[2] == 8 && c[3] == 8 && c[4] == 8;
    assert c == [1, 1, 8, 8, 8];
  }

  /** The torch reference layers keyed by spatial rank. */
  datatype PoolLayer = AvgPool1d | AvgPool2d | AvgPool3d

  function SpatialRank(l: PoolLayer): nat
  {
    match l
    case AvgPool1d => 1
    case AvgPool2d => 2
    case AvgPool3d => 3
  }

  /** The reference computation `pool` chooses: a layer, and whether a half input is computed in single precision. */
  datatype PoolPlan = PoolPlan(layer: PoolLayer, computeInSingle: bool)

  /**
   * The layer lookup in `pool`: None for a spatial rank outside 1..3, where
   * the script reports an unsupported dimension; a 3-D half input is
   * converted to single precision and back around the layer.
   */
  function SelectPool(xRank: nat, isHalf: bool): (r: Option<PoolPlan>)
    ensures r.Some? <==> 1 <= xRank - 2 <= 3
    ensures r.Some? ==> SpatialRank(r.value.layer) == xRank - 2
    ensures r.Some? ==> (r.value.computeInSingle <==> xRank - 2 == 3 && isHalf)
  {
    var ndim := xRank - 2;
    if ndim == 1 then Some(PoolPlan(AvgPool1d, false))
    else if ndim == 2 then Some(PoolPlan(AvgPool2d, false))
    else if ndim == 3 then Some(PoolPlan(AvgPool3d, isHalf))
    else None
  }

  /**
   * Whenever `inferShape` accepts a case with one to three kernel axes, the
   * reference has a layer of exactly that spatial rank.
   */
  lemma ReferenceLayerMatchesKernel(xShape: seq<int>, kernel: seq<int>, padding: seq<int>, strides: seq<int>,
                                    isHalf: bool)
    requires ExpectedShape(xShape, kernel, padding, strides).Ok?
    requires 1 <= |kernel| <= 3
    ensures SelectPool(|xShape|, isHalf).Some?
    ensures SpatialRank(SelectPool(|xShape|, isHalf).value.layer) == |kernel|
  {
  }

  /** The library entry points the script calls, in the order it may call them. */
  datatype LibCall = CreateDescriptor | GetWorkspaceSize | RunPool | DestroyDescriptor

  /** Where the script's descriptor is in its life. */
  datatype Phase = NoDescriptor | Created | WorkspaceKnown | Destroyed

  /**
   * The order the script follows: Create, then GetWorkspaceSize, then any
   * number of runs, then Destroy; None for a call out of that order. This is
   * the script's protocol, not a rule the library checks.
   */
  function Step(p: Phase, c: LibCall): Option<Phase>
  {
    match (p, c)
    case (NoDescriptor, CreateDescriptor) => Some(Created)
    case (Created, GetWorkspaceSize) => Some(WorkspaceKnown)
    case (WorkspaceKnown, RunPool) => Some(WorkspaceKnown)
    case (Created, DestroyDescriptor) => Some(Destroyed)
    case (WorkspaceKnown, DestroyDescriptor) => Some(Destroyed)
    case _ => None
  }

  /** The phase after a whole trace, or None if some call was out of order. */
  function Run(p: Phase, trace: seq<LibCall>): Option<Phase>
    decreases |trace|
  {
    if |trace| == 0 then Some(p)
    else
      match Step(p, trace[0])
      case None => None
      case Some(q) => Run(q, trace[1..])
  }

  /** Running a concatenation runs the first part, then the second from where the first ended. */
  lemma {:induction false} RunConcat(p: Phase, a: seq<LibCall>, b: seq<LibCall>)
    ensures Run(p, a + b) == (match Run(p, a) case None => None case Some(q) => Run(q, b))
    decreases |a|
  {
    if |a| == 0 {
      assert a + b == b;
    } else {
      assert (a + b)[0] == a[0];
      assert (a + b)[1..] == a[1..] + b;
      match Step(p, a[0])
      case None =>
      case Some(q) => RunConcat(q, a[1..], b);
    }
  }

  /** k consecutive runs. */
  function Runs(k: nat): (r: seq<LibCall>)
    ensures |r| == k
    ensures forall i :: 0 <= i < k ==> r[i] == RunPool
  {
    seq(k, _ => RunPool)
  }

  /** A descriptor whose workspace size is known can be run any number of times. */
  lemma {:induction false} RunsAreRepeatable(k: nat)
    ensures Run(WorkspaceKnown, Runs(k)) == Some(WorkspaceKnown)
  {
    if k > 0 {
      assert Runs(k)[1..] == Runs(k - 1);
      RunsAreRepeatable(k - 1);
    }
  }

  /** The calls of one `test` case: Create, GetWorkspaceSize, k runs, Destroy. */
  function Lifecycle(k: nat): seq<LibCall>
  {
    [CreateDescriptor, GetWorkspaceSize] + Runs(k) + [DestroyDescriptor]
  }

  /** The lifecycle is in order and ends with the descriptor destroyed. */
  lemma LifecycleIsInOrder(k: nat)
    ensures Run(NoDescriptor, Lifecycle(k)) == Some(Destroyed)
  {
    RunConcat(NoDescriptor, [CreateDescriptor, GetWorkspaceSize] + Runs(k), [DestroyDescriptor]);
    RunConcat(NoDescriptor, [CreateDescriptor, GetWorkspaceSize], Runs(k));
    assert Run(NoDescriptor, [CreateDescriptor, GetWorkspaceSize]) == Some(WorkspaceKnown);
    RunsAreRepeatable(k);
  }

  /** After the lifecycle, any further call on the descriptor is out of the script's order. */
  lemma NoCallAfterDestroy(k: nat, c: LibCall)
    ensures Run(NoDescriptor, Lifecycle(k) + [c]) == None
  {
    LifecycleIsInOrder(k);
    RunConcat(NoDescriptor, Lifecycle(k), [c]);
  }

  /**
   * In the script's order (Step), a run before the descriptor's workspace
   * size was asked for is out of order. This restates that order; it is not
   * a check the library makes.
   */
  lemma RunBeforeWorkspaceIsOutOfOrder(rest: seq<LibCall>)
    ensures Run(NoDescriptor, [RunPool] + rest) == None
    ensures Run(NoDescriptor, [CreateDescriptor, RunPool] + rest) == None
  {
    assert ([CreateDescriptor, RunPool] + rest)[1..] == [RunPool] + rest;
  }

  /**
   * The library calls of `test`: Create, GetWorkspaceSize, the warm-up runs
   * (NUM_PRERUN when profiling, else one), the timed runs when profiling,
   * Destroy.
   */
  method TestCalls(profile: bool) returns (trace: seq<LibCall>)
    ensures trace == Lifecycle(if profile then NUM_PRERUN + NUM_ITERATIONS else 1)
    ensures Run(NoDescriptor, trace) == Some(Destroyed)
  {
    trace := [CreateDescriptor, GetWorkspaceSize];
    var warmUps := if profile then NUM_PRERUN else 1;
    for i := 0 to warmUps
      invariant trace == [CreateDescriptor, GetWorkspaceSize] + Runs(i)
    {
      assert Runs(i) + [RunPool] == Runs(i + 1);
      trace := trace + [RunPool];
    }
    if profile {
      for i := 0 to NUM_ITERATIONS
        invariant trace == [CreateDescriptor, GetWorkspaceSize] + Runs(warmUps + i)
      {
        assert Runs(warmUps + i) + [RunPool] == Runs(warmUps + i + 1);
        trace := trace + [RunPool];
      }
    }
    trace := trace + [DestroyDescriptor];
    LifecycleIsInOrder(if profile then NUM_PRERUN + NUM_ITERATIONS else 1);
  }
}
