/** Thread-group sizing of the EASU and RCAS main kernels: one group per 8x8
    tile of the output, rounded up. */
module DispatchPlanner {

  /** The side of the square tile one thread group works on. */
  const ThreadGroupWorkRegionRim: int := 8

  /** C#'s `/` on `int`: the quotient is truncated toward zero. */
  function TruncatedDiv(a: int, b: int): (q: int)
    requires b > 0
    ensures a >= 0 ==> q * b <= a < q * b + b
    ensures a < 0 ==> q <= 0 && q * b >= a > q * b - b
  {
    if a >= 0 then a / b else -((-a) / b)
  }

  /** `(extent + ThreadGroupWorkRegionRim - 1) / ThreadGroupWorkRegionRim`:
      for every extent that is not negative the count is the ceiling of
      extent / 8, so the groups cover the whole extent and the last group
      is not wholly outside it. */
  function GroupCount(extent: int): (groups: int)
    ensures extent >= 0 ==> groups >= 0
    ensures extent >= 0 ==> groups * ThreadGroupWorkRegionRim >= extent
    ensures extent >= 0 ==> (groups - 1) * ThreadGroupWorkRegionRim < extent
    ensures extent >= 1 ==> groups >= 1
  {
    TruncatedDiv(extent + ThreadGroupWorkRegionRim - 1, ThreadGroupWorkRegionRim)
  }

  /** The ceiling is the least count that covers the extent. */
  lemma GroupCountIsLeast(extent: int, groups: int)
    requires extent >= 0 && groups * ThreadGroupWorkRegionRim >= extent
    ensures GroupCount(extent) <= groups
  {
  }

  /** A 1920x1080 output is covered by 240x135 groups. */
  lemma FullHdGroups()
    ensures GroupCount(1920) == 240 && GroupCount(1080) == 135
  {
  }
}
