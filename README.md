# Vulkan `select` dispatch planning

A model of the Vulkan backend's `select(tensor, dim, index)` operator for
rank-3 tensors of shape (C, H, W). The entry point checks the rank, then
the axis, then the index. It normalises a negative index by adding the axis
size and routes the call to one of three axis kernels: `select_depth`,
`select_height` or `select_width`. Each kernel creates an output tensor
without the selected axis and builds the uniform parameter block
`{uvec3 size; uint index;}`. It then picks the global work-group size,
declares its two image accesses in a pipeline barrier and submits one
compute job.

The model does not perform that submission. It describes the job as a
value, `SelectOps.Plan`. A plan holds:

- the kernel;
- whether the input had to be uploaded first;
- the output sizes and scalar type;
- the parameter block;
- the global and local work-group sizes;
- the barrier's access records, in order;
- the shader arguments.

The project has four modules:

- `VulkanApi` (`vulkan_api.dfy`): integer widths (`i64`, `size64`, `u32`),
  `UVec3`, stages, access kinds, barrier records, shader arguments, kernel
  identifiers, the logical `Tensor`, the int64-to-uint32 conversion
  `ToU32`, and `DivUp` with its ceiling lemmas.
- `SelectOps` (`select_ops.dfy`): the three kernels as plan functions and the
  operator `SelectPlan`, returning `Result<Plan, Error>`, plus the reference
  shape function `RemoveAxis` and the element count `Numel`. The error is
  `InvalidRank`, `InvalidAxis` or `IndexOutOfRange(index, sizes, dim)`.
- `SelectProperties` (`select_properties.dfy`): lemmas about validation
  order, boundary indices, normalisation, routing, output shapes,
  work-group sizes and channel packing.
- `SelectSubmit` (`select_submit.dfy`): the kernels in the source's
  step-by-step form. `PipelineBarrier` is a class whose access list is
  extended in place by each `BindImage` call, just as `vTensor::image` is
  given the barrier by reference. The methods `SelectDepth`,
  `SelectHeight`, `SelectWidth` and `Select` are proved to produce exactly
  the plans that the `SelectOps` functions describe.

Assumptions (the headers they depend on are not part of this model):

- The extents of a 2-D device tensor of sizes (a, b) are (b, a, 1). This
  is the texture layout stated in the comments next to `select_height`
  and `select_width` (Select.cpp lines 76-77 and 133-134).
  `vTensor::extents()` itself is not part of this model.
- `v_input.image(barrier, COMPUTE)` declares a READ access. This is the
  default access kind of `vTensor::image`.
- `api::utils::div_up` is ceiling division.
- The two `image(...)` calls are arguments of the same call. C++ leaves
  the order in which function arguments are evaluated unspecified, so the
  order of the two barrier records is not fixed by the language. The
  model uses the textual order: the output WRITE first, then the input
  READ.

## Model

| member | source | states |
|---|---|---|
| `VulkanApi.ToU32` | aten/src/ATen/native/vulkan/ops/Select.cpp:192-198 | the int64 index passed as a `uint32_t` kernel argument is congruent to it modulo 2^32, and equal to it when it is in [0, 2^32) |
| `VulkanApi.DivUpIsCeiling` | aten/src/ATen/native/vulkan/ops/Select.cpp:85 | `q = div_up(a, b)` satisfies `b*q >= a` and `b*(q-1) < a` |
| `VulkanApi.DivUpUnique` | aten/src/ATen/native/vulkan/ops/Select.cpp:142 | any q with `b*q >= a` and `b*(q-1) < a` is `div_up(a, b)`: the ceiling is unique |
| `SelectOps.RemoveAxis` | aten/src/ATen/native/vulkan/ops/Select.cpp:19-23 | reference output shape: the sizes before the removed axis are unchanged and the ones after it move down by one |
| `SelectOps.SelectDepthPlan` | aten/src/ATen/native/vulkan/ops/Select.cpp:12-54 | kernel `select_depth`; output sizes are the input sizes without axis 0, with the input's scalar type; block `{(W, H, 1), index}`; global size equals the output extents; the input is uploaded iff it is not on Vulkan; barrier records output WRITE then input READ at COMPUTE; arguments are output image, input image, params |
| `SelectOps.SelectHeightPlan` | aten/src/ATen/native/vulkan/ops/Select.cpp:56-111 | kernel `select_height`; output sizes are the input sizes without axis 1; block `{(W, C, 1), index}`; global size `(W, ceil(C/4), 1)`; the same barrier and argument order |
| `SelectOps.SelectWidthPlan` | aten/src/ATen/native/vulkan/ops/Select.cpp:113-168 | kernel `select_width`; output sizes are the input sizes without axis 2; block `{(H, C, 1), index}`; global size `(H, ceil(C/4), 1)`; the same barrier and argument order |
| `SelectOps.NormalizeIndex` | aten/src/ATen/native/vulkan/ops/Select.cpp:188-190 | an index in [-size, size) lands in [0, size): a non-negative index is unchanged, a negative one becomes `index + size` |
| `SelectOps.SelectPlan` | aten/src/ATen/native/vulkan/ops/Select.cpp:170-199 | rank other than 3 gives `InvalidRank` whatever dim and index are; for rank 3, dim outside {0,1,2} gives `InvalidAxis`; otherwise the call succeeds iff `-size <= index < size`, and a failure is `IndexOutOfRange(index, sizes, dim)` with the original index; a success uses the kernel of its axis and is a well-formed dispatch |
| `SelectProperties.RankCheckedFirst` | aten/src/ATen/native/vulkan/ops/Select.cpp:171 | for a tensor whose rank is not 3, every dim and index give the same `InvalidRank` |
| `SelectProperties.AxisCheckedBeforeIndex` | aten/src/ATen/native/vulkan/ops/Select.cpp:172-176 | for rank 3 and dim outside {0,1,2}, the result is `InvalidAxis` independently of the sizes and of the index |
| `SelectProperties.BoundaryIndicesRejected` | aten/src/ATen/native/vulkan/ops/Select.cpp:178-187 | `index == size` and `index == -size-1` give `IndexOutOfRange` carrying that index, the full sizes and dim; `size-1` and `-size` are accepted when size > 0 |
| `SelectProperties.NormalisedIndex` | aten/src/ATen/native/vulkan/ops/Select.cpp:188-198 | the block's index is the normalised index modulo 2^32; for an axis no longer than 2^32 it is exactly the normalised index, in [0, size) |
| `SelectProperties.NegativeFormSamePlan` | aten/src/ATen/native/vulkan/ops/Select.cpp:188-190 | for 0 <= i < size, `i - size` is accepted and gives the same plan as `i` |
| `SelectProperties.Routing` | aten/src/ATen/native/vulkan/ops/Select.cpp:192-198 | dim 0 iff the `select_depth` kernel, dim 1 iff `select_height`, dim 2 iff `select_width`; the plan is that kernel's plan for the block's index |
| `SelectProperties.OutputShape` | aten/src/ATen/native/vulkan/ops/Select.cpp:19-23 | the output shape is the input shape without the selected axis: (H, W), (C, W) or (C, H); the scalar type is kept |
| `SelectProperties.WorkGroupSizes` | aten/src/ATen/native/vulkan/ops/Select.cpp:78-85 | block size equals the output extents; local size is the adaptive size of the global size; depth dispatches (W, H, 1); height (W, ceil(C/4), 1); width (H, ceil(C/4), 1); for height and width the global size is `(extent[0], div_up(extent[1], 4), 1)` |
| `SelectProperties.ChannelGroupsCoverChannels` | aten/src/ATen/native/vulkan/ops/Select.cpp:81-85 | with `q = ceil(c/4)` channel invocations, every channel ch < c lies in invocation ch/4 < q, and every invocation g < q starts at a channel 4g < c |
| `SelectProperties.ChannelGroupCounts` | aten/src/ATen/native/vulkan/ops/Select.cpp:142 | ceil(C/4) for C = 1, 3, 4, 5, 8, 9 is 1, 1, 1, 2, 2, 3 |
| `SelectProperties.DepthScenario` | aten/src/ATen/native/vulkan/ops/Select.cpp:12-54 | shape (3, 4, 5), dim 0, index 1: output (4, 5), block `{(5, 4, 1), 1}`, global (5, 4, 1) |
| `SelectProperties.HeightScenario` | aten/src/ATen/native/vulkan/ops/Select.cpp:56-111 | shape (3, 4, 5), dim 1, index -1: index 3, output (3, 5), global (5, 1, 1) |
| `SelectProperties.NumelRemoveAxis` | aten/src/ATen/native/vulkan/ops/Select.cpp:19-23 | removing axis k from any shape divides its element count by `s[k]`: `Numel(RemoveAxis(s, k)) * s[k] == Numel(s)` |
| `SelectProperties.SliceElementCount` | aten/src/ATen/native/vulkan/ops/Select.cpp:170-199 | an accepted select's output has exactly `numel(input) / size(dim)` elements: one slice of the input |
| `SelectProperties.SamePlanIffSameNormalisedIndex` | aten/src/ATen/native/vulkan/ops/Select.cpp:188-198 | on an axis no longer than 2^32, two accepted indices give the same plan if and only if they normalise to the same index |
| `SelectSubmit.PipelineBarrier.constructor` | aten/src/ATen/native/vulkan/ops/Select.cpp:31 | a default-constructed barrier holds no accesses |
| `SelectSubmit.PipelineBarrier.Record` | aten/src/ATen/native/vulkan/ops/Select.cpp:45-49 | recording appends exactly one access and keeps the earlier ones in order |
| `SelectSubmit.BindImage` | aten/src/ATen/native/vulkan/ops/Select.cpp:102-106 | an image declaration appends its (resource, stage, access) to the barrier passed by reference and yields that image as a shader argument |
| `SelectSubmit.Submit` | aten/src/ATen/native/vulkan/ops/Select.cpp:144-165 | a fresh barrier, output WRITE then input READ, and the submission yield the job `Job` describes |
| `SelectSubmit.SelectDepth` | aten/src/ATen/native/vulkan/ops/Select.cpp:12-54 | the step-by-step kernel yields exactly `SelectDepthPlan` |
| `SelectSubmit.SelectHeight` | aten/src/ATen/native/vulkan/ops/Select.cpp:56-111 | the step-by-step kernel yields exactly `SelectHeightPlan` |
| `SelectSubmit.SelectWidth` | aten/src/ATen/native/vulkan/ops/Select.cpp:113-168 | the step-by-step kernel yields exactly `SelectWidthPlan` |
| `SelectSubmit.Select` | aten/src/ATen/native/vulkan/ops/Select.cpp:170-199 | the guard checks, the in-place `index += size` and the if-chain yield exactly `SelectPlan` |

## Left out

- Device work is not modelled: `api::context()`, `UniformParamsBuffer`, the
  internals of `PipelineBarrier`, and `submit_compute_job` itself. These
  are calls into the Vulkan runtime. Their inputs appear as fields of the
  plan.
- `adaptive_work_group_size` is not defined here, because its definition
  is not part of this model. The local size is recorded symbolically as
  `Adaptive(global)`.
- `vTensor`'s computation of `extents()` from sizes and its memory
  allocation are not part of this model. The extents follow the layout
  assumed above.
- `input_arg.vulkan()` and `convert(...)` copy and convert tensors. Only
  whether an upload happens is recorded, as `uploadsInput`.
- The GLSL shaders and the data they move are not modelled, so the model
  says nothing about the values in the output tensor.
- The fence argument (`VK_NULL_HANDLE`) is a constant that is not
  recorded. Fences, asynchronous execution and queue concurrency are not
  modelled.
- The `TORCH_LIBRARY_IMPL` registration is not modelled.
- `OutOfMemory` and `DeviceError` come from the allocator and the device.
  The code in this file raises neither.
- The text of the error messages is not modelled. `IndexOutOfRange`
  carries the values the message prints: the index, the sizes and the dim.
- `DivUp`: models `div_up` as unbounded ceiling division. A uint32
  wrap-around inside `div_up` is not captured, because its definition is
  not part of this model.
- Extents and work-group sizes are unbounded naturals rather than
  `uint32_t`. The model does not capture narrowing of sizes at or above
  2^32 into a `uvec3`.
