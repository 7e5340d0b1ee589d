/**
 * Properties of the select operator that relate several calls or follow
 * from the plans: boundary indices, normalisation, routing, output shapes,
 * work-group sizing and channel packing.
 */
module SelectProperties {
  import opened VulkanApi
  import opened SelectOps

  /** Rank is checked before anything else: no dim or index changes the error. */
  lemma RankCheckedFirst(self: Tensor, dim: i64, index: i64, dim': i64, index': i64)
    requires |self.sizes| != 3
    ensures SelectPlan(self, dim, index) == SelectPlan(self, dim', index') == Err(InvalidRank)
  {
  }

  /**
   * The axis is checked before the size lookup and the index check: the
   * error does not depend on the sizes or on the index.
   */
  lemma AxisCheckedBeforeIndex(self: Tensor, other: Tensor, dim: i64, index: i64, index': i64)
    requires |self.sizes| == 3 && |other.sizes| == 3
    requires !(0 <= dim <= 2)
    ensures SelectPlan(self, dim, index) == SelectPlan(other, dim, index') == Err(InvalidAxis)
  {
  }

  /** `index == size` and `index == -size - 1` are the first indices rejected on either side. */
  lemma BoundaryIndicesRejected(self: Tensor, dim: i64)
    requires |self.sizes| == 3 && 0 <= dim <= 2
    ensures var size: int := self.sizes[dim];
            && SelectPlan(self, dim, size) == Err(IndexOutOfRange(size, self.sizes, dim))
            && SelectPlan(self, dim, -size - 1) == Err(IndexOutOfRange(-size - 1, self.sizes, dim))
            && (size > 0 ==> SelectPlan(self, dim, size - 1).Ok? && SelectPlan(self, dim, -size).Ok?)
  {
  }

  /**
   * The index a kernel receives is the normalised index narrowed to
   * uint32_t; when the axis is shorter than 2^32 it is exactly the
   * normalised index, in [0, size).
   */
  lemma NormalisedIndex(self: Tensor, dim: i64, index: i64)
    requires SelectPlan(self, dim, index).Ok?
    ensures var size: int := self.sizes[dim];
            var k := SelectPlan(self, dim, index).value.block.index;
            && (k - (if index < 0 then index + size else index)) % U32_MODULUS == 0
            && (size <= U32_MODULUS ==>
                  && 0 <= k < size
                  && (index >= 0 ==> k == index)
                  && (index < 0 ==> k == index + size))
  {
  }

  /** An index and its negative form `i - size` give the same plan. */
  lemma NegativeFormSamePlan(self: Tensor, dim: i64, i: i64)
    requires |self.sizes| == 3 && 0 <= dim <= 2
    requires 0 <= i < self.sizes[dim]
    ensures SelectPlan(self, dim, i - self.sizes[dim]).Ok?
    ensures SelectPlan(self, dim, i - self.sizes[dim]) == SelectPlan(self, dim, i)
  {
  }

  /** Routing is total and exclusive: dim 0 to depth, 1 to height, 2 to width. */
  lemma Routing(self: Tensor, dim: i64, index: i64)
    requires SelectPlan(self, dim, index).Ok?
    ensures var p := SelectPlan(self, dim, index).value;
            var k := p.block.index;
            && (dim == 0 <==> p.kernel == SelectDepthKernel)
            && (dim == 1 <==> p.kernel == SelectHeightKernel)
            && (dim == 2 <==> p.kernel == SelectWidthKernel)
            && (dim == 0 ==> p == SelectDepthPlan(self, k))
            && (dim == 1 ==> p == SelectHeightPlan(self, k))
            && (dim == 2 ==> p == SelectWidthPlan(self, k))
  {
  }

  /** The output shape drops the selected axis and keeps the others in order. */
  lemma OutputShape(self: Tensor, dim: i64, index: i64)
    requires SelectPlan(self, dim, index).Ok?
    ensures var p := SelectPlan(self, dim, index).value;
            var s := self.sizes;
            && p.outSizes == RemoveAxis(s, dim)
            && (dim == 0 ==> p.outSizes == [s[1], s[2]])
            && (dim == 1 ==> p.outSizes == [s[0], s[2]])
            && (dim == 2 ==> p.outSizes == [s[0], s[1]])
            && p.outScalarType == self.scalarType
  {
    var s := self.sizes;
    var p := SelectPlan(self, dim, index).value;
    assert p.outSizes == RemoveAxis(s, dim) by {
      Routing(self, dim, index);
    }
    assert |p.outSizes| == 2 && p.outSizes[0] == RemoveAxis(s, dim)[0]
           && p.outSizes[1] == RemoveAxis(s, dim)[1];
  }

  /**
   * Work-group sizes: depth dispatches its output extents (W, H, 1); height
   * and width dispatch (surviving spatial extent, ceil(C / 4), 1). The
   * parameter block holds the output extents and the kernel's index.
   */
  lemma WorkGroupSizes(self: Tensor, dim: i64, index: i64)
    requires SelectPlan(self, dim, index).Ok?
    ensures var p := SelectPlan(self, dim, index).value;
            var s := self.sizes;
            && p.block.size == ImageExtents(p.outSizes)
            && p.localSize == Adaptive(p.globalSize)
            && (dim == 0 ==> p.globalSize == p.block.size == UVec3(s[2], s[1], 1))
            && (dim == 1 ==> p.globalSize == UVec3(s[2], DivUp(s[0], 4), 1))
            && (dim == 2 ==> p.globalSize == UVec3(s[1], DivUp(s[0], 4), 1))
            && (dim != 0 ==> p.globalSize.x == p.block.size.x
                             && p.globalSize.y == DivUp(p.block.size.y, 4))
  {
    Routing(self, dim, index);
  }

  /**
   * Channel packing: with q = ceil(c / 4) invocations along the channel
   * axis, every channel falls in one of them (channel ch in group ch / 4)
   * and no invocation is empty (group g starts at channel 4 * g < c).
   */
  lemma ChannelGroupsCoverChannels(c: nat)
    ensures var q := DivUp(c, 4);
            && 4 * q >= c && 4 * (q - 1) < c
            && (forall ch :: 0 <= ch < c ==> ch / 4 < q)
            && (forall g :: 0 <= g < q ==> 4 * g < c)
  {
  }

  /** The channel counts of the boundary and non-multiple-of-four cases. */
  lemma ChannelGroupCounts()
    ensures DivUp(1, 4) == 1 && DivUp(3, 4) == 1 && DivUp(4, 4) == 1
    ensures DivUp(5, 4) == 2 && DivUp(8, 4) == 2 && DivUp(9, 4) == 3
  {
  }

  /** Input (3, 4, 5), dim 0, index 1: output (4, 5), block {(5, 4, 1), 1}, global (5, 4, 1). */
  lemma DepthScenario()
    ensures var r := SelectPlan(Tensor([3, 4, 5], 0, true), 0, 1);
            && r.Ok?
            && r.value.outSizes == [4, 5]
            && r.value.block == Block(UVec3(5, 4, 1), 1)
            && r.value.globalSize == UVec3(5, 4, 1)
  {
  }

  /** Input (3, 4, 5), dim 1, index -1: index 3, output (3, 5), global (5, 1, 1). */
  lemma HeightScenario()
    ensures var r := SelectPlan(Tensor([3, 4, 5], 0, true), 1, -1);
            && r.Ok?
            && r.value.block.index == 3
            && r.value.outSizes == [3, 5]
            && r.value.globalSize == UVec3(5, 1, 1)
  {
  }

  /** Removing axis k divides the element count by that axis' size. */
  lemma {:induction false} NumelRemoveAxis(s: seq<size64>, k: nat)
    requires k < |s|
    ensures Numel(RemoveAxis(s, k)) * s[k] == Numel(s)
  {
    if k > 0 {
      NumelRemoveAxis(s[1..], k - 1);
      assert RemoveAxis(s, k) == [s[0]] + RemoveAxis(s[1..], k - 1);
      assert RemoveAxis(s, k)[1..] == RemoveAxis(s[1..], k - 1);
      calc {
        Numel(RemoveAxis(s, k)) * s[k];
        (s[0] * Numel(RemoveAxis(s[1..], k - 1))) * s[k];
        s[0] * (Numel(RemoveAxis(s[1..], k - 1)) * s[k]);
        s[0] * Numel(s[1..]);
      }
    } else {
      assert RemoveAxis(s, 0) == s[1..];
    }
  }

  /**
   * The output is one slice of the input: its element count times the size
   * of the selected axis is the input's element count.
   */
  lemma SliceElementCount(self: Tensor, dim: i64, index: i64)
    requires SelectPlan(self, dim, index).Ok?
    ensures Numel(SelectPlan(self, dim, index).value.outSizes) * self.sizes[dim] == Numel(self.sizes)
  {
    OutputShape(self, dim, index);
    NumelRemoveAxis(self.sizes, dim);
  }

  /**
   * Two accepted indices on one axis give the same plan exactly when they
   * normalise to the same index (for an axis no longer than 2^32).
   */
  lemma SamePlanIffSameNormalisedIndex(self: Tensor, dim: i64, i: i64, j: i64)
    requires SelectPlan(self, dim, i).Ok? && SelectPlan(self, dim, j).Ok?
    requires self.sizes[dim] <= U32_MODULUS
    ensures SelectPlan(self, dim, i) == SelectPlan(self, dim, j) <==>
            NormalizeIndex(i, self.sizes[dim]) == NormalizeIndex(j, self.sizes[dim])
  {
  }
}
