/** The shape checks: constant loop extents and the table of supported tile shapes. */
module Shape {
  import opened Wrappers
  import opened Ir

  /** WMMA tile configurations; one is supported, everything else is unknown. */
  datatype WmmaLayout = M16N16K16 | UnknownLayout

  /** get_wmma_layout: the tile for an M x N x K loop nest. */
  function GetWmmaLayout(m: int, n: int, k: int): (r: WmmaLayout)
    ensures r == M16N16K16 <==> m == 16 && n == 16 && k == 16
    ensures r == UnknownLayout <==> (m, n, k) != (16, 16, 16)
  {
    if m == 16 && n == 16 && k == 16 then M16N16K16 else UnknownLayout
  }

  /**
   * get_const_extent: the extent of a loop that starts at the constant 0 and
   * runs a constant number of iterations; None where the internal_assert fails.
   */
  function ConstExtent(loop: Loop): (r: Option<int>)
    ensures r.Some? <==> loop.min == IntImm(0) && loop.extent.IntImm?
    ensures r.Some? ==> loop.extent == IntImm(r.value)
  {
    if loop.min == IntImm(0) && loop.extent.IntImm? then Some(loop.extent.imm) else None
  }
}
