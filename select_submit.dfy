/**
 * The kernels in the source's own, step-by-step form: each builds its
 * output sizes and parameter block, default-constructs a pipeline barrier,
 * lets each image declaration record its access in that barrier (passed by
 * reference), and hands everything to the submission. Each method is
 * proved to produce the plan its SelectOps function describes.
 */
module SelectSubmit {
  import opened VulkanApi
  import opened SelectOps

  /** api::PipelineBarrier: the accesses declared so far, in order. */
  class PipelineBarrier {
    var accesses: seq<Access>

    /** A default-constructed barrier records nothing. */
    constructor ()
      ensures accesses == []
    {
      accesses := [];
    }

    /** Records one resource access. */
    method Record(a: Access)
      modifies this
      ensures accesses == old(accesses) + [a]
    {
      accesses := accesses + [a];
    }
  }

  /**
   * vTensor::image(barrier, stage, access): declares the access in the
   * barrier and yields the image as a shader argument.
   */
  method BindImage(resource: Resource, barrier: PipelineBarrier, stage: Stage, kind: AccessKind)
    returns (arg: Argument)
    modifies barrier
    ensures barrier.accesses == old(barrier.accesses) + [Access(resource, stage, kind)]
    ensures arg == ImageArg(resource)
  {
    barrier.Record(Access(resource, stage, kind));
    arg := ImageArg(resource);
  }

  /** The common tail of the three kernels: one fresh barrier, two bindings, the submission. */
  method Submit(kernel: Kernel, input: Tensor, outSizes: seq<size64>, global: UVec3, index: u32)
    returns (job: Plan)
    requires |outSizes| == 2
    ensures job == Job(kernel, input, outSizes, global, index)
  {
    var block := Block(ImageExtents(outSizes), index);
    var barrier := new PipelineBarrier();
    var output := BindImage(OutputImage, barrier, Compute, Write);
    var input' := BindImage(InputImage, barrier, Compute, Read);
    job := Plan(kernel, !input.isVulkan, outSizes, input.scalarType, block,
                global, Adaptive(global), barrier.accesses, [output, input', ParamsBuffer]);
  }

  method SelectDepth(input: Tensor, index: u32) returns (job: Plan)
    requires |input.sizes| == 3
    ensures job == SelectDepthPlan(input, index)
  {
    var outSizes := [input.sizes[1], input.sizes[2]];
    job := Submit(SelectDepthKernel, input, outSizes, ImageExtents(outSizes), index);
  }

  method SelectHeight(input: Tensor, index: u32) returns (job: Plan)
    requires |input.sizes| == 3
    ensures job == SelectHeightPlan(input, index)
  {
    var outSizes := [input.sizes[0], input.sizes[2]];
    var extents := ImageExtents(outSizes);
    var w := extents.x;
    var c := extents.y;
    job := Submit(SelectHeightKernel, input, outSizes, UVec3(w, DivUp(c, 4), 1), index);
  }

  method SelectWidth(input: Tensor, index: u32) returns (job: Plan)
    requires |input.sizes| == 3
    ensures job == SelectWidthPlan(input, index)
  {
    var outSizes := [input.sizes[0], input.sizes[1]];
    var extents := ImageExtents(outSizes);
    var h := extents.x;
    var c := extents.y;
    job := Submit(SelectWidthKernel, input, outSizes, UVec3(h, DivUp(c, 4), 1), index);
  }

  /** The operator: guard checks, the in-place normalisation of index, the if-chain. */
  method Select(self: Tensor, dim: i64, index: i64) returns (r: Result<Plan, Error>)
    ensures r == SelectPlan(self, dim, index)
  {
    if |self.sizes| != 3 {
      return Err(InvalidRank);
    }
    if !(0 <= dim <= 2) {
      return Err(InvalidAxis);
    }
    var size: int := self.sizes[dim];
    if index < -size || index >= size {
      return Err(IndexOutOfRange(index, self.sizes, dim));
    }
    var i := index;
    if i < 0 {
      i := i + size;
    }
    var job;
    if dim == 0 {
      job := SelectDepth(self, ToU32(i));
    } else if dim == 1 {
      job := SelectHeight(self, ToU32(i));
    } else {
      job := SelectWidth(self, ToU32(i));
    }
    r := Ok(job);
  }
}
