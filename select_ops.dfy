/**
 * The Vulkan `select(tensor, dim, index)` operator as dispatch planning.
 * Each axis kernel is a function that yields the job it would submit (a
 * Plan); the entry point validates rank, axis and index, normalises a
 * negative index and routes to one kernel.
 */
module SelectOps {
  import opened VulkanApi

  datatype Error =
    | InvalidRank
    | InvalidAxis
    | IndexOutOfRange(index: int, sizes: seq<size64>, dim: int)

  /** The uniform parameter block {uvec3 size; uint index;}. */
  datatype Block = Block(size: UVec3, index: u32)

  /**
   * Everything a kernel hands to submit_compute_job, plus the output
   * tensor it creates: its sizes and scalar type.
   */
  datatype Plan = Plan(
    kernel: Kernel,
    uploadsInput: bool,          // input_arg.vulkan() was needed first
    outSizes: seq<size64>,
    outScalarType: nat,
    block: Block,
    globalSize: UVec3,
    localSize: LocalSize,
    accesses: seq<Access>,       // the pipeline barrier, in declaration order
    arguments: seq<Argument>)    // the shader arguments, in order

  /** Reference definition of an output shape: the sizes with axis k removed. */
  function RemoveAxis(s: seq<size64>, k: nat): (r: seq<size64>)
    requires k < |s|
    ensures |r| == |s| - 1
    ensures forall j :: 0 <= j < k ==> r[j] == s[j]
    ensures forall j :: k <= j < |r| ==> r[j] == s[j + 1]
  {
    s[..k] + s[k + 1..]
  }

  /** Number of elements of a tensor with these sizes. */
  function Numel(s: seq<size64>): nat
  {
    if s == [] then 1 else s[0] * Numel(s[1..])
  }

  /**
   * What every select dispatch shares: the parameter block carries the
   * output texture's extents, the local size is derived from the global
   * size, the barrier holds the output image written at the compute stage
   * and then the input image read at the compute stage, and the shader gets
   * output image, input image and parameter buffer in that order.
   */
  ghost predicate WellFormed(p: Plan)
  {
    && |p.outSizes| == 2
    && p.block.size == ImageExtents(p.outSizes)
    && p.localSize == Adaptive(p.globalSize)
    && |p.accesses| == 2
    && p.accesses[0] == Access(OutputImage, Compute, Write)
    && p.accesses[1] == Access(InputImage, Compute, Read)
    && p.arguments == [ImageArg(OutputImage), ImageArg(InputImage), ParamsBuffer]
  }

  /** The job a kernel submits once it knows its output sizes and global size. */
  function Job(kernel: Kernel, input: Tensor, outSizes: seq<size64>, global: UVec3, index: u32): Plan
    requires |outSizes| == 2
  {
    Plan(kernel, !input.isVulkan, outSizes, input.scalarType,
         Block(ImageExtents(outSizes), index), global, Adaptive(global),
         [Access(OutputImage, Compute, Write), Access(InputImage, Compute, Read)],
         [ImageArg(OutputImage), ImageArg(InputImage), ParamsBuffer])
  }

  /** select_depth: drops C; one invocation per output texel (W, H, 1). */
  function SelectDepthPlan(input: Tensor, index: u32): (p: Plan)
    requires |input.sizes| == 3
    ensures WellFormed(p)
    ensures p.kernel == SelectDepthKernel
    ensures p.outSizes == RemoveAxis(input.sizes, 0)
    ensures p.outScalarType == input.scalarType && p.uploadsInput == !input.isVulkan
    ensures p.block == Block(UVec3(input.sizes[2], input.sizes[1], 1), index)
    ensures p.globalSize == p.block.size
  {
    var outSizes := [input.sizes[1], input.sizes[2]];
    Job(SelectDepthKernel, input, outSizes, ImageExtents(outSizes), index)
  }

  /**
   * select_height: drops H; the output (C, W) has texture extents (W, C, 1)
   * and channels are handled four per invocation: (W, ceil(C / 4), 1).
   */
  function SelectHeightPlan(input: Tensor, index: u32): (p: Plan)
    requires |input.sizes| == 3
    ensures WellFormed(p)
    ensures p.kernel == SelectHeightKernel
    ensures p.outSizes == RemoveAxis(input.sizes, 1)
    ensures p.outScalarType == input.scalarType && p.uploadsInput == !input.isVulkan
    ensures p.block == Block(UVec3(input.sizes[2], input.sizes[0], 1), index)
    ensures p.globalSize == UVec3(input.sizes[2], DivUp(input.sizes[0], 4), 1)
  {
    var outSizes := [input.sizes[0], input.sizes[2]];
    var extents := ImageExtents(outSizes);
    var w, c := extents.x, extents.y;
    Job(SelectHeightKernel, input, outSizes, UVec3(w, DivUp(c, 4), 1), index)
  }

  /**
   * select_width: drops W; the output (C, H) has texture extents (H, C, 1)
   * and channels are handled four per invocation: (H, ceil(C / 4), 1).
   */
  function SelectWidthPlan(input: Tensor, index: u32): (p: Plan)
    requires |input.sizes| == 3
    ensures WellFormed(p)
    ensures p.kernel == SelectWidthKernel
    ensures p.outSizes == RemoveAxis(input.sizes, 2)
    ensures p.outScalarType == input.scalarType && p.uploadsInput == !input.isVulkan
    ensures p.block == Block(UVec3(input.sizes[1], input.sizes[0], 1), index)
    ensures p.globalSize == UVec3(input.sizes[1], DivUp(input.sizes[0], 4), 1)
  {
    var outSizes := [input.sizes[0], input.sizes[1]];
    var extents := ImageExtents(outSizes);
    var h, c := extents.x, extents.y;
    Job(SelectWidthKernel, input, outSizes, UVec3(h, DivUp(c, 4), 1), index)
  }

  /** The shader that serves each axis. */
  function AxisKernel(dim: int): Kernel
  {
    if dim == 0 then SelectDepthKernel
    else if dim == 1 then SelectHeightKernel
    else SelectWidthKernel
  }

  /** An index in [-size, size) moved into [0, size). */
  function NormalizeIndex(index: int, size: int): (n: int)
    requires -size <= index < size
    ensures 0 <= n < size
    ensures index >= 0 ==> n == index
    ensures index < 0 ==> n == index + size
  {
    if index < 0 then index + size else index
  }

  /** The axis kernel for `dim`, with the index as the kernel receives it. */
  function Route(self: Tensor, dim: int, index: u32): Plan
    requires |self.sizes| == 3
  {
    if dim == 0 then SelectDepthPlan(self, index)
    else if dim == 1 then SelectHeightPlan(self, index)
    else SelectWidthPlan(self, index)
  }

  /**
   * The operator: rank first, then axis, then index, each failure with its
   * own error; an accepted call runs the kernel of its axis on the
   * normalised index narrowed to uint32_t.
   */
  function SelectPlan(self: Tensor, dim: i64, index: i64): (r: Result<Plan, Error>)
    ensures |self.sizes| != 3 ==> r == Err(InvalidRank)
    ensures |self.sizes| == 3 && !(0 <= dim <= 2) ==> r == Err(InvalidAxis)
    ensures |self.sizes| == 3 && 0 <= dim <= 2 ==>
              (r.Ok? <==> -self.sizes[dim] <= index < self.sizes[dim])
    ensures |self.sizes| == 3 && 0 <= dim <= 2 && r.Err? ==>
              r.error == IndexOutOfRange(index, self.sizes, dim)
    ensures r.Ok? ==> |self.sizes| == 3 && 0 <= dim <= 2
    ensures r.Ok? ==> r.value.kernel == AxisKernel(dim) && WellFormed(r.value)
  {
    if |self.sizes| != 3 then Err(InvalidRank)
    else if !(0 <= dim <= 2) then Err(InvalidAxis)
    else
      var size: int := self.sizes[dim];
      if index < -size || index >= size then
        Err(IndexOutOfRange(index, self.sizes, dim))
      else
        Ok(Route(self, dim, ToU32(NormalizeIndex(index, size))))
  }
}
