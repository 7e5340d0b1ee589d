/**
 * Value types of the Vulkan compute API that one select dispatch talks
 * about: integer widths, work-group sizes, pipeline stages, memory-access
 * kinds, barrier records, shader arguments, kernel identifiers and the
 * logical tensor handed to the operator. Also api::utils::div_up and the
 * texture extents of a 2-D device tensor.
 */
module VulkanApi {

  const U32_MODULUS: int := 0x1_0000_0000

  /** C++ int64_t: the type of `dim`, `index` and a tensor's sizes. */
  type i64 = x: int | -0x8000_0000_0000_0000 <= x < 0x8000_0000_0000_0000

  /** A tensor size: a non-negative int64_t. */
  type size64 = x: int | 0 <= x < 0x8000_0000_0000_0000

  /** C++ uint32_t: the type of the selected index handed to a kernel. */
  type u32 = x: int | 0 <= x < 0x1_0000_0000

  datatype Result<T, E> = Ok(value: T) | Err(error: E)

  /** A uvec3: texture extents and work-group sizes. */
  datatype UVec3 = UVec3(x: nat, y: nat, z: nat)

  datatype Stage = Compute

  datatype AccessKind = Read | Write

  /** The two images a select dispatch binds. */
  datatype Resource = OutputImage | InputImage

  /** One entry recorded in a pipeline barrier by a resource-access declaration. */
  datatype Access = Access(resource: Resource, stage: Stage, kind: AccessKind)

  /** A shader argument handed to submit_compute_job. */
  datatype Argument = ImageArg(resource: Resource) | ParamsBuffer

  /**
   * The local work-group size: adaptive_work_group_size applied to the
   * global size. The heuristic itself is not part of this model, so it is
   * kept symbolic.
   */
  datatype LocalSize = Adaptive(global: UVec3)

  /** The three precompiled shaders, VK_KERNEL(select_depth/height/width). */
  datatype Kernel = SelectDepthKernel | SelectHeightKernel | SelectWidthKernel

  /**
   * A logical tensor as the operator sees it: its sizes, its scalar type
   * (an opaque tag) and whether it already lives on the Vulkan device.
   */
  datatype Tensor = Tensor(sizes: seq<size64>, scalarType: nat, isVulkan: bool)

  /** The conversion of an int64_t to uint32_t: the value modulo 2^32. */
  function ToU32(x: int): (r: u32)
    ensures (x - r) % U32_MODULUS == 0
    ensures 0 <= x < U32_MODULUS ==> r == x
  {
    x % U32_MODULUS
  }

  /** api::utils::div_up: ceiling division. */
  function DivUp(a: nat, b: nat): nat
    requires b > 0
  {
    (a + b - 1) / b
  }

  /** DivUp(a, b) is the ceiling of a / b: the least q with b * q >= a. */
  lemma DivUpIsCeiling(a: nat, b: nat)
    requires b > 0
    ensures b * DivUp(a, b) >= a
    ensures b * (DivUp(a, b) - 1) < a
  {
  }

  /** The ceiling is the only integer with those two properties. */
  lemma DivUpUnique(a: nat, b: nat, q: int)
    requires b > 0
    requires b * q >= a && b * (q - 1) < a
    ensures q == DivUp(a, b)
  {
    DivUpIsCeiling(a, b);
  }

  /**
   * Texture extents of a 2-D device tensor of sizes (a, b): (b, a, 1).
   * vTensor::extents() is not part of this model; this is the layout that the
   * comments in select_height and select_width state for the output texture.
   */
  function ImageExtents(sizes: seq<size64>): UVec3
    requires |sizes| == 2
  {
    UVec3(sizes[1], sizes[0], 1)
  }
}
