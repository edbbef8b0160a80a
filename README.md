# Operator descriptor layer: a Dafny model

This project models the descriptor-creation layer of an operator library. The
layer sits between callers and opaque vendor kernels. It covers:

- **Element types and devices** (`include/data_type.h`, `include/device.h`):
  - the five-field `DataLayout` record;
  - its union-punned `operator==` and `operator!=`;
  - the twelve named element types;
  - the closed `DeviceEnum`.
- **MUSA Create validators** for convolution, pooling, RMS normalisation and ReLU:
  - each is a fixed-order guard chain over tensor descriptors that returns the first failing status;
  - on success it builds a descriptor record;
  - convolution and pooling also allocate vendor tensor and operator objects. These are modelled in a host heap, so the model can state what a failing Create leaves behind (nothing) and what Destroy frees (not everything).
- **Generic dispatch** (`src/ops/*/operator.cc`):
  - every stage of every operator switches on a device tag;
  - it forwards its arguments to the backend of that device, or returns `STATUS_BAD_DEVICE`;
  - the legacy RMSNorm entry points panic instead.
  - Which arms the build enabled is the parameter `enabled: set<Device>`.
- **Test-script shape arithmetic**:
  - the pooling output shape, the reference layer choice and the call sequence of `operatorspy/tests/avg_pool.py`;
  - the broadcast and table shapes of `operatorspy/tests/rotary_embedding.py`.

Conventions:

- C integer widths are explicit:
  - `U64`, `I64` and `CInt` are subset types;
  - `ToInt32`, `ToInt64` and `ToUint64` model the two's-complement conversions `static_cast` performs.
- Floats (`alpha`, `beta`, `epsilon`, ...) are 32-bit patterns passed through unchanged.
- The vendor library (`musa::dnn`) appears only as the records its setters fill in (module `Mudnn`).
- `is_contiguous` is defined in a `utils.h` that is not part of this model. It is taken to mean that the strides are the dense row-major strides of the shape (`Operators.IsContiguous`).
- The union pun in `operator==` is modelled as the 32-bit word the bit-fields occupy. Bit-fields are allocated from the least significant bit, as GCC and Clang do.

Files:

| file | module | models |
|---|---|---|
| wrappers.dfy | Wrappers | Option and Result |
| python_errors.dfy | PythonErrors | exceptions the test helpers can raise |
| data_type.dfy | DataType | include/data_type.h |
| device.dfy | Devices | include/device.h |
| operators.dfy | Operators | statuses, C widths, tensor descriptors, handles |
| validation.dfy | Validation | a guard chain as a list of checks |
| host_heap.dfy | HostHeap | `new` and `delete` on a heap of records |
| mudnn.dfy | Mudnn | vendor tensor, convolution and pooling records and their setters |
| conv_musa.dfy | ConvMusa | src/ops/conv/musa |
| pooling_musa.dfy | PoolingMusa | src/ops/pooling/musa |
| rms_norm_musa.dfy | RmsNormMusa | src/ops/rms_norm/musa |
| relu_musa.dfy | ReluMusa | src/ops/relu/musa |
| dispatch.dfy | Dispatch | the device switch shared by every entry point |
| matmul_dispatch.dfy | MatmulDispatch | src/ops/matmul/operator.cc |
| random_sample_dispatch.dfy | RandomSampleDispatch | src/ops/random_sample/operator.cc |
| rearrange_dispatch.dfy | RearrangeDispatch | src/ops/rearrange/operator.cc |
| pooling_dispatch.dfy | PoolingDispatch | src/ops/pooling/operator.cc |
| rms_norm_legacy.dfy | RmsNormLegacy | src/ops/rms_norm/operator.cc |
| avg_pool_test.dfy | AvgPoolTest | operatorspy/tests/avg_pool.py |
| rotary_embedding_test.dfy | RotaryEmbeddingTest | operatorspy/tests/rotary_embedding.py |

## Model

| member | source | states |
|---|---|---|
| DataType.Word | include/data_type.h:4-16 | the five bit-fields fill exactly the 32-bit `unsigned int` the union reads |
| DataType.FieldsOfWord | include/data_type.h:4-10 | reading the five fields back out of the word gives the layout back, so the pun loses no field |
| DataType.Eq | include/data_type.h:12-22 | `operator==` holds exactly when the two layouts are equal field by field |
| DataType.NeIsFieldDifference | include/data_type.h:24-26 | `operator!=` holds exactly when some field differs |
| DataType.EqIsEquivalence | include/data_type.h:12-22 | `operator==` is reflexive, symmetric and transitive |
| DataType.NamedPairwiseUnequal | include/data_type.h:33-44 | no two of the twelve named types compare equal |
| DataType.HalfFormatsDiffer | include/data_type.h:41-42 | F16 and BF16 have the same size but differ in mantissa and exponent, so they compare unequal |
| DataType.IntegerLayouts | include/data_type.h:33-40 | integer types have exponent 0; signed ones have sign 1 and unsigned ones sign 0 |
| DataType.NamedBitsAddUp | include/data_type.h:33-44 | for every named type, sign + mantissa + exponent is 8 × size |
| Devices.Ordinal | include/device.h:4-10 | each enumerator's value is its position in the declaration |
| Devices.FromOrdinal | include/device.h:4-10 | exactly the integers 0..4 name an enumerator |
| Devices.OrdinalRoundTrip | include/device.h:5-9 | converting an enumerator to its value and back gives the enumerator |
| Devices.FromOrdinalRoundTrip | include/device.h:5-9 | converting a value in 0..4 to its enumerator and back gives the value |
| Devices.DistinctEnumerators | include/device.h:4-12 | the five kinds are pairwise distinct, every `Device` is one of them, and there are exactly five |
| Devices.FirstAndLastOrdinals | include/device.h:5-9 | DevCpu is 0 and DevMtGpu is 4 |
| Operators.ToInt32 | src/ops/conv/musa/conv_musa.cc:41-43 | `static_cast<int>` keeps the value modulo 2^32 and lands in the `int` range; in-range values are unchanged |
| Operators.ToInt64 | src/ops/conv/musa/conv_musa.cc:44-46 | `static_cast<int64_t>` keeps the value modulo 2^64 and lands in the `int64_t` range; in-range values are unchanged |
| Operators.ToUint64 | src/ops/rms_norm/musa/rms_norm_musa.cc:21-22 | conversion to `unsigned long` keeps the value modulo 2^64 and lands in 0..2^64-1; non-negative values are unchanged |
| Operators.RowMajorStrideIsSuffixProduct | src/ops/relu/musa/relu_musa.cc:18 | a contiguous tensor's stride on axis i is the product of the extents after i |
| ConvMusa.CheckConv | src/ops/conv/musa/conv_musa.cc:15-27 | Create succeeds exactly when ranks (≥ 3, all equal), batch and channel extents, and element types (y F16 or F32, x and w the same) agree; any shape failure is BAD_TENSOR_SHAPE, and BAD_TENSOR_DTYPE occurs only once the shapes pass |
| ConvMusa.CheckConvIsFirstFailure | src/ops/conv/musa/conv_musa.cc:15-27 | the status is the first failing check in source order: rank, extents, allowed type, matching types |
| ConvMusa.SpatialParams | src/ops/conv/musa/conv_musa.cc:29-43 | a widened pad, stride or dilation array has max(4, ndim) entries |
| ConvMusa.PaddedShape | src/ops/conv/musa/conv_musa.cc:29-46 | a widened shape array has max(4, ndim) entries |
| ConvMusa.ConvolutionSeesCallerParams | src/ops/conv/musa/conv_musa.cc:40-43 | the convolution object gets the caller's ndim - 2 values narrowed to `int`, plus the default for the extra axis when a 1-D convolution is widened |
| ConvMusa.PaddedShapeKeepsElementCount | src/ops/conv/musa/conv_musa.cc:44-46 | widening keeps the caller's extents as a prefix and does not change the element count |
| ConvMusa.ConvertConvParams | src/ops/conv/musa/conv_musa.cc:29-47 | the loop fills six fresh arrays with exactly the widened pad, stride, dilation and x, w, y shapes |
| ConvMusa.NewConvTensors | src/ops/conv/musa/conv_musa.cc:49-69 | three new distinct vendor tensors, each typed HALF for F16 and FLOAT otherwise, in NCHW format with the widened extents; nothing else on the heap changes |
| ConvMusa.CreateConvDescriptor | src/ops/conv/musa/conv_musa.cc:6-108 | the status is the guard chain's; a failure allocates nothing, yields no descriptor and needs no parameter arrays; a success adds exactly five new objects (three tensors, the convolution, the descriptor with DevMtGpu, y's type, alpha 1, beta 0, workspace size 0) |
| ConvMusa.GetConvWorkspaceSize | src/ops/conv/musa/conv_musa.cc:110-113 | returns the stored workspace size, with success |
| ConvMusa.CreatedConvNeedsNoWorkspace | src/ops/conv/musa/conv_musa.cc:110-113 | a descriptor built by Create reports workspace size 0 |
| ConvMusa.DestroyConvDescriptor | src/ops/conv/musa/conv_musa.cc:115-120 | removes the descriptor and nothing else from the heap, and succeeds |
| ConvMusa.CreateThenDestroyLeaks | src/ops/conv/musa/conv_musa.cc:115-120 | after a successful Create and then Destroy, exactly four objects Create allocated stay live |
| ConvMusa.DestroyConvDescriptorReleasingAll | src/ops/conv/musa/conv_musa.cc:115-120 | the corrected Destroy removes the three tensors, the convolution and the descriptor |
| ConvMusa.CreateThenDestroyRestoresHeap | src/ops/conv/musa/conv_musa.cc:6-120 | with the corrected Destroy, Create followed by Destroy leaves the heap exactly as it was |
| ConvMusa.ScenarioRankMismatchReadsNoParams | src/ops/conv/musa/conv_musa.cc:15-18 | a rank-5 y against rank-4 x and w, with two-entry parameter arrays, is refused with BAD_TENSOR_SHAPE and leaves the heap unchanged |
| ConvMusa.ScenarioMatchingShapesSucceed | src/ops/conv/musa/conv_musa.cc:15-27 | x 1×3×8×8, w 4×3×3×3 and y 1×4×6×6, all F32, pass every check |
| ConvMusa.ScenarioIntegerOutputRejected | src/ops/conv/musa/conv_musa.cc:22-24 | the same shapes with y declared I32 are refused with BAD_TENSOR_DTYPE |
| Mudnn.VendorType | src/ops/conv/musa/conv_musa.cc:53-61 | the vendor tensor type is HALF exactly for F16 |
| PoolingMusa.PoolingModeOf | src/ops/pooling/musa/pooling_musa.h:43-52 | pooling type 1 selects AVGPOOL_COUNT_PAD and every other integer selects MAXPOOL |
| PoolingMusa.PoolingRankCountsPooledAxes | src/ops/pooling/musa/pooling_musa.cc:15-18 | once the rank check passes, n is the rank minus 2 |
| PoolingMusa.CheckPooling | src/ops/pooling/musa/pooling_musa.cc:15-33 | each status holds exactly when its check is the first to fail, in the order shape, strides, parameter, dtype; a negative pooling type is not refused |
| PoolingMusa.CheckPoolingIsFirstFailure | src/ops/pooling/musa/pooling_musa.cc:15-33 | the status is the first failing check of the six in source order |
| PoolingMusa.ReinterpretedParams | src/ops/pooling/musa/pooling_musa.cc:37-39 | what the vendor reads through `int const*`: n entries, as many as it asked for |
| PoolingMusa.ReinterpretedEvenEntriesAreLowWords | src/ops/pooling/musa/pooling_musa.cc:37-39 | entry 2i is the low 32-bit word of the caller's entry i |
| PoolingMusa.ReinterpretedOddEntriesAreHighWords | src/ops/pooling/musa/pooling_musa.cc:37-39 | entry 2i + 1 is the high 32-bit word of the caller's entry i |
| PoolingMusa.ReinterpretationZeroesSecondAxis | src/ops/pooling/musa/pooling_musa.cc:37-39 | for two or more positive values that fit `int`, the vendor sees the first correctly but 0 for the second, so what it reads differs from the caller's values |
| PoolingMusa.ReinterpretedKernelThreeByThree | src/ops/pooling/musa/pooling_musa.cc:37-39 | a 3×3 kernel reaches the vendor as (3, 0); narrowing gives (3, 3) |
| PoolingMusa.NarrowedParams | src/ops/pooling/musa/pooling_musa.cc:37-39 | the corrected conversion: n `int` values, each congruent to the caller's modulo 2^32, equal to them when they fit |
| PoolingMusa.Int64View | src/ops/pooling/musa/pooling_musa.cc:41-44 | reading the extents and strides as `int64_t` keeps every value below 2^63 |
| PoolingMusa.Ones | src/ops/pooling/musa/pooling_musa.cc:69-70 | n entries, all 1 |
| PoolingMusa.FillOnes | src/ops/pooling/musa/pooling_musa.cc:69-70 | `std::fill` leaves every entry of the dilation array equal to 1 |
| PoolingMusa.NewPoolingTensors | src/ops/pooling/musa/pooling_musa.cc:46-62 | three new distinct tensors: x and y typed by y's element type, NCHW, with their own extents and strides; the indices tensor stays unconfigured |
| PoolingMusa.NewPoolingOperator | src/ops/pooling/musa/pooling_musa.cc:64-72 | allocates `indice`, the pooling object and `dilation_`; the object gets the mode, n narrowed to `int`, the kernel, pads and strides read as the given reading, and n dilations of 1 |
| PoolingMusa.CreatePoolingDescriptor | src/ops/pooling/musa/pooling_musa.cc:6-88 | the status is the guard chain's; a failure allocates nothing and needs no parameter arrays; a success adds exactly the seven objects it allocates, with a descriptor holding DevMtGpu, y's type, alpha 1 and beta 0, and a pooling object holding the 32-bit words of the caller's kernel, pad and stride arrays, as written |
| PoolingMusa.AsWrittenOperatorDiffers | src/ops/pooling/musa/pooling_musa.cc:37-72 | for two or more axes with positive `int`-sized parameters, the pooling object Create configures has 0 as its second kernel extent, pad and stride, and differs from the one the caller asked for |
| PoolingMusa.CreatePoolingDescriptorNarrowing | src/ops/pooling/musa/pooling_musa.cc:6-88 | the corrected Create: the same statuses and allocations, with each kernel, pad and stride value narrowed to `int` |
| PoolingMusa.NarrowedOperatorSeesCallerParams | src/ops/pooling/musa/pooling_musa.cc:66-72 | with narrowing, the pooling object holds exactly the caller's n, kernel, pads and strides when they fit `int` |
| PoolingMusa.GetPoolingWorkspaceSize | src/ops/pooling/musa/pooling_musa.cc:90-93 | always 0, with success |
| PoolingMusa.DestroyPoolingDescriptor | src/ops/pooling/musa/pooling_musa.cc:95-104 | removes the x, y and indices tensors, the pooling object and the descriptor, and nothing else |
| PoolingMusa.CreateThenDestroyPoolingLeaks | src/ops/pooling/musa/pooling_musa.cc:95-104 | after a successful Create and then Destroy, exactly two new objects stay live: `indice` and `dilation_` |
| PoolingMusa.ScenarioPoolingTypeTwoRejected | src/ops/pooling/musa/pooling_musa.cc:25-27 | a valid 2-D request with pooling type 2 is refused with BAD_PARAM |
| PoolingMusa.ScenarioNegativePoolingTypeIsMaxPool | src/ops/pooling/musa/pooling_musa.cc:25-27 | pooling type -1 passes the checks and selects MAXPOOL |
| RmsNormMusa.CreateRmsNorm | src/ops/rms_norm/musa/rms_norm_musa.cc:5-36 | succeeds exactly when y and x are the same n×d matrix shape and w has d entries, otherwise BAD_TENSOR_SHAPE with no descriptor; the descriptor records the handle's device and index, the types, n, d, epsilon and the two row strides as `unsigned long` |
| RmsNormMusa.CreateRmsNormIsFirstFailure | src/ops/rms_norm/musa/rms_norm_musa.cc:10-19 | the status is the first failing check: ranks, then extents |
| RmsNormMusa.CreateRmsNormIgnoresTypesAndStrides | src/ops/rms_norm/musa/rms_norm_musa.cc:10-35 | changing element types or strides never changes the status |
| RmsNormMusa.GetRmsNormWorkspaceSize | src/ops/rms_norm/musa/rms_norm_musa.cc:38-41 | always 0, with success |
| RmsNormMusa.DestroyRmsNorm | src/ops/rms_norm/musa/rms_norm_musa.cc:43-46 | always succeeds |
| RmsNormMusa.ScenarioRowLengthMismatch | src/ops/rms_norm/musa/rms_norm_musa.cc:14-19 | x 4×16 against y 4×8 is refused with BAD_TENSOR_SHAPE |
| ReluMusa.SameExtentsIsShapeEquality | src/ops/relu/musa/relu_musa.cc:13-17 | the axis scan passes exactly when the two shapes are equal |
| ReluMusa.AccumulateIsProductMod | src/ops/relu/musa/relu_musa.cc:28 | the 64-bit fold equals the exact product reduced modulo 2^64 once |
| ReluMusa.DataSize | src/ops/relu/musa/relu_musa.cc:28 | data_size is the element count modulo 2^64: 1 for rank 0, exact when below 2^64 |
| ReluMusa.CreateRelu | src/ops/relu/musa/relu_musa.cc:5-40 | each status holds exactly when its check is the first to fail (shape, strides, dtype); a descriptor exists exactly on success and holds DevMtGpu, y's type, the device index, the rank, data_size and the grid size |
| ReluMusa.CreateReluIsFirstFailure | src/ops/relu/musa/relu_musa.cc:9-26 | the status is the first failing check of the five in source order |
| ReluMusa.DestroyRelu | src/ops/relu/musa/relu_musa.cc:42-45 | always succeeds |
| Dispatch.BackendForIsInjective | src/ops/matmul/operator.cc:28-58 | distinct device kinds call distinct backend families |
| Dispatch.Route | src/ops/matmul/operator.cc:28-61 | a stage forwards its call unchanged to the tag's backend exactly when the tag has an arm and is enabled, and otherwise returns BAD_DEVICE |
| Dispatch.SameTagSameRoute | src/ops/matmul/operator.cc:21-159 | two stages that read the same tag over the same arms reach the same backend, or both fail |
| Dispatch.NoArmIsBadDevice | src/ops/pooling/operator.cc:50 | a tag without an arm is refused whatever the build enables |
| MatmulDispatch.CreateMatmul | src/ops/matmul/operator.cc:21-62 | routes on the handle's device over all five arms and forwards c, a, b, alpha and beta unchanged; only the Ascend arm adds a trailing 1 |
| MatmulDispatch.GetMatmulWorkspaceSize | src/ops/matmul/operator.cc:64-94 | routes on the descriptor's device and forwards its arguments unchanged |
| MatmulDispatch.Matmul | src/ops/matmul/operator.cc:96-128 | routes on the descriptor's device; the CPU arm drops the stream and the others pass it |
| MatmulDispatch.DestroyMatmul | src/ops/matmul/operator.cc:130-159 | routes on the descriptor's device |
| MatmulDispatch.MatmulStagesAgree | src/ops/matmul/operator.cc:21-159 | a descriptor's four stages all reach Create's backend, or all fail |
| RandomSampleDispatch.CreateRandomSample | src/ops/random_sample/operator.cc:21-50 | routes on the handle's device and forwards its arguments unchanged |
| RandomSampleDispatch.GetRandomSampleWorkspaceSize | src/ops/random_sample/operator.cc:52-82 | routes on the descriptor's device |
| RandomSampleDispatch.RandomSample | src/ops/random_sample/operator.cc:84-119 | routes on the descriptor's device; workspace, random value, topp, topk and temperature are forwarded with no range check |
| RandomSampleDispatch.DestroyRandomSample | src/ops/random_sample/operator.cc:121-147 | routes on the descriptor's device |
| RandomSampleDispatch.RandomSampleStagesAgree | src/ops/random_sample/operator.cc:21-147 | the four stages of one descriptor reach the same backend, or all fail |
| RearrangeDispatch.CreateRearrange | src/ops/rearrange/operator.cc:24-60 | routes on the handle's device and forwards dst and src unchanged |
| RearrangeDispatch.Rearrange | src/ops/rearrange/operator.cc:62-94 | routes on the descriptor's device, with no workspace, forwarding dst, src and stream |
| RearrangeDispatch.DestroyRearrange | src/ops/rearrange/operator.cc:96-125 | routes on the descriptor's device |
| RearrangeDispatch.RearrangeStagesAgree | src/ops/rearrange/operator.cc:24-125 | the three stages of one descriptor reach the same backend, or all fail |
| PoolingDispatch.CreatePooling | src/ops/pooling/operator.cc:20-51 | forwards exactly for an enabled CPU, NVIDIA or MUSA tag, passing kernel, pads, strides, n and pooling type unchanged |
| PoolingDispatch.GetPoolingWorkspaceSize | src/ops/pooling/operator.cc:53-76 | the same three arms, on the descriptor's device |
| PoolingDispatch.Pooling | src/ops/pooling/operator.cc:78-100 | the same three arms, on the descriptor's device |
| PoolingDispatch.DestroyPooling | src/ops/pooling/operator.cc:102-124 | the same three arms, on the descriptor's device |
| PoolingDispatch.PoolingRefusesCambriconAndAscend | src/ops/pooling/operator.cc:30-50 | Cambricon and Ascend tags get BAD_DEVICE even when every device is enabled |
| PoolingDispatch.PoolingStagesAgree | src/ops/pooling/operator.cc:20-124 | the four stages of one descriptor reach the same backend, or all fail |
| RmsNormLegacy.CreateOutcome | src/ops/rms_norm/operator.cc:18-36 | an enabled CPU, NVIDIA or Cambricon device yields a descriptor holding that device; every other device panics |
| RmsNormLegacy.AscendAndMusaPanic | src/ops/rms_norm/operator.cc:32-33 | Ascend and MUSA devices panic even when every device is enabled |
| RmsNormLegacy.CreateRmsNormDescriptor | src/ops/rms_norm/operator.cc:18-36 | on success one new record holding the device is allocated; on panic the heap is unchanged |
| RmsNormLegacy.DestroyRmsNormDescriptor | src/ops/rms_norm/operator.cc:38-40 | removes the record and nothing else |
| RmsNormLegacy.CreateThenDestroyRestoresHeap | src/ops/rms_norm/operator.cc:18-40 | Create followed by Destroy leaves the heap as it was |
| RmsNormLegacy.RmsNorm | src/ops/rms_norm/operator.cc:42-63 | calls the f16 kernel of the descriptor's device for an enabled arm, passing the stream except on CPU; otherwise panics |
| RmsNormLegacy.CreatedDescriptorRuns | src/ops/rms_norm/operator.cc:18-63 | a descriptor Create returns always reaches a kernel |
| AvgPoolTest.FloorDiv | operatorspy/tests/avg_pool.py:67 | `//` rounds the quotient towards minus infinity, for either sign of divisor |
| AvgPoolTest.OutputExtentCountsWindows | operatorspy/tests/avg_pool.py:67 | with a positive stride, the extent is the number of windows that fit in the padded axis: the last one fits and one more would not |
| AvgPoolTest.ExpectedShape | operatorspy/tests/avg_pool.py:59-70 | AssertionError exactly when the lengths disagree, ZeroDivisionError exactly when they agree and a stride is 0; otherwise a shape of x's rank that keeps x's first two extents |
| AvgPoolTest.InferShape | operatorspy/tests/avg_pool.py:59-70 | the appending loop returns exactly the expected shape or error |
| AvgPoolTest.ExpectedShapeSpatialExtents | operatorspy/tests/avg_pool.py:66-68 | each spatial entry is `(dim + 2p - k) // s + 1` for its axis |
| AvgPoolTest.WorkedCases | operatorspy/tests/avg_pool.py:206-208 | (1,1,2,2) gives (1,1,3,3); (32,4,224,224) with k 3, p 1, s 2 gives (32,4,112,112); (1,1,16,16,16) with k 5, p 2, s 2 gives (1,1,8,8,8) |
| AvgPoolTest.SelectPool | operatorspy/tests/avg_pool.py:38-53 | a layer exists exactly for 1 to 3 spatial axes and has that rank; a half input is computed in single precision exactly in 3-D |
| AvgPoolTest.ReferenceLayerMatchesKernel | operatorspy/tests/avg_pool.py:38-70 | whenever the shape is inferred for one to three kernel axes, the reference layer has that many axes |
| AvgPoolTest.RunConcat | operatorspy/tests/avg_pool.py:108-160 | running two call sequences one after the other is running their concatenation |
| AvgPoolTest.RunsAreRepeatable | operatorspy/tests/avg_pool.py:128-151 | once the workspace size is known, the descriptor can be run any number of times |
| AvgPoolTest.LifecycleIsInOrder | operatorspy/tests/avg_pool.py:108-160 | Create, GetWorkspaceSize, k runs, Destroy is in order and ends with the descriptor destroyed |
| AvgPoolTest.NoCallAfterDestroy | operatorspy/tests/avg_pool.py:160 | no call is in order after Destroy |
| AvgPoolTest.RunBeforeWorkspaceIsOutOfOrder | operatorspy/tests/avg_pool.py:108-138 | in the script's order, running before Create, or right after Create without asking for the workspace size, is out of order (the script's protocol, not a library check) |
| AvgPoolTest.TestCalls | operatorspy/tests/avg_pool.py:108-160 | the script makes one run, or 10 + 1000 when profiling, between GetWorkspaceSize and Destroy, and the sequence is in order |
| RotaryEmbeddingTest.Arange | operatorspy/tests/rotary_embedding.py:55-58 | the multiples of the step below stop, and no more of them |
| RotaryEmbeddingTest.PrefixSlice | operatorspy/tests/rotary_embedding.py:58 | `[:n]` keeps the first n entries, or all when there are fewer |
| RotaryEmbeddingTest.FrequencyExponents | operatorspy/tests/rotary_embedding.py:58 | exactly dh // 2 exponents: the even numbers below dh |
| RotaryEmbeddingTest.RepeatInterleave | operatorspy/tests/rotary_embedding.py:61-62 | doubles the length, with entries 2i and 2i + 1 both equal to input entry i |
| RotaryEmbeddingTest.EvenEntries | operatorspy/tests/rotary_embedding.py:61-62 | the entries at even positions, in order |
| RotaryEmbeddingTest.SinCosTableShape | operatorspy/tests/rotary_embedding.py:54-64 | one row per position and dim rounded down to even columns |
| RotaryEmbeddingTest.ReshapeForBroadcast | operatorspy/tests/rotary_embedding.py:32-37 | succeeds exactly when x has rank ≥ 2 and freqs has shape (x[0], x[-1]), otherwise AssertionError; the result has x's rank, keeps axis 0 and the last axis, is 1 elsewhere and holds as many elements as freqs |
| RotaryEmbeddingTest.BroadcastShapeKeepsCount | operatorspy/tests/rotary_embedding.py:36-37 | a shape that is 1 between its first and last axis holds first × last elements |
| RotaryEmbeddingTest.ComplexViewShape | operatorspy/tests/rotary_embedding.py:48 | the complex view exists exactly when the last extent is even, and halves it |
| RotaryEmbeddingTest.ReferenceShapesAgree | operatorspy/tests/rotary_embedding.py:40-49 | for a (seq, heads, dh) input with even dh, the frequency table broadcasts to (seq, 1, dh / 2) |
| RotaryEmbeddingTest.TestTablesCoverPositions | operatorspy/tests/rotary_embedding.py:74-80 | the tables have twice the sequence length as rows, every position the test uses is a row, and an even head dimension is the table width |

## Left out

- Vendor library calls (`SetType`, `SetFormat`, `SetNdInfo`, `SetMode`, `GetRecommendForwardAlgorithm`, `use_mudnn`): their effects are modelled only as the records they fill in. The algorithm the recommendation call chooses is a parameter of `ConvMusa.CreateConvDescriptor`.
- The shared vendor-handle pool (`Pool<musa::dnn::Handle>`, `shared_ptr`): an opaque reference that Create copies and Destroy clears. Checkout and concurrency are not modelled.
- Kernels and execute bodies (`musaConv`, `musaPooling`, the cpu, cuda, bang and aclnn backends, `rms_norm_*_f16`): not shown. Dispatch ends at the call it forwards.
- Float values (alpha, beta, epsilon, random value, topp, temperature, theta, the sin, cos and complex arithmetic): carried as bit patterns or not at all.
- The `printf` output of convolution Create: debug output only.
- `handle->prop.maxGridSize[0]`: a device query, taken as an input of the handle.
- `is_contiguous`: `utils.h` is not part of this model. It is taken to be the dense row-major stride rule.
- The `(int)` narrowing of `new_ndim` and `ndim` passed to the tensor and convolution setters: not modelled; those vendor records keep the rank unnarrowed. Pooling's `(int) n` is narrowed (`ToInt32`).
- PoolingMusa.FillOnes: fills all n entries of the dilation array, where the source fills `(int) n` of them; the two differ only for n ≥ 2^31.
- AvgPoolTest.TestCalls: models only a passing run. A raising `check_error` or a failing `assert torch.allclose` (avg_pool.py:159) leaves the script before Destroy at line 160.
- The `delete[]` of convolution's six scratch arrays: not modelled, because Dafny arrays are garbage-collected. `ConvMusa.ConvertConvParams` returns them fresh.
- Interleaving of the three tensors' setter calls: the model applies them in the source's order, one call at a time.
- Conditional compilation: replaced by the `enabled` parameter.
- ctypes bindings, `tuple_to_void_p`, torch reference values, `torch.allclose`, timers and argument parsing in the test scripts.
- AvgPoolTest.SelectPool: models only which layer is chosen and whether the input is upcast, not the pooling itself.
- RotaryEmbeddingTest.ComplexViewShape: does not model torch's refusal of `-1` when the other extents multiply to 0.
- The byte order of the 64-bit words in `PoolingMusa.ReinterpretedParams`: taken as little-endian, as on the hardware the library targets.

## Findings

| source | as written | input that shows it | evidently intended | confidence | as-written member | corrected member |
|---|---|---|---|---|---|---|
| src/ops/pooling/musa/pooling_musa.cc:37-39 | the `uint64_t`/`int64_t` kernel, pad and stride arrays are reinterpreted as `int const*`, so the pooling object Create configures (`PoolingMusa.CreatePoolingDescriptor`) holds 32-bit halves of 64-bit values | kernel (3, 3) as two 64-bit values (the test passes `c_int64` arrays): the vendor reads (3, 0) | each entry narrowed to `int`, giving (3, 3) | not executed; high | PoolingMusa.AsWrittenOperatorDiffers | PoolingMusa.CreatePoolingDescriptorNarrowing |
| src/ops/conv/musa/conv_musa.cc:115-120 | Destroy deletes only the descriptor; the x, w and y tensors and the convolution object (lines 49-51, 71) are never freed | any successful Create followed by Destroy leaves four objects live | free all four, as pooling's Destroy does for its own objects | not executed; high | ConvMusa.CreateThenDestroyLeaks | ConvMusa.CreateThenDestroyRestoresHeap |
