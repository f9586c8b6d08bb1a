/** Volume sizes: driver/controller.go, maximumVolumeSize and extractStorage. */
module Capacity {
  import opened Outcomes
  import BlockSize

  const MIB := 1024 * 1024
  const GIB := 1024 * MIB
  const TIB := 1024 * GIB
  const MINIMUM_VOLUME_SIZE := 4194304
  const DEFAULT_VOLUME_SIZE := 5 * GIB
  const VOLUME_SIZE_PER_BLOCK_BYTE := 8 * TIB / (4 * BlockSize.KIB)

  /** An int64 multiplication, as the source computes it. */
  function MaximumVolumeSize(blockSize: int): int {
    Int64(blockSize * VOLUME_SIZE_PER_BLOCK_BYTE)
  }

  /** For a legal block size the product does not wrap: 2^31 bytes per byte of block, at most 2^48. */
  lemma MaximumVolumeSizeExact(blockSize: int)
    requires BlockSize.Legal(blockSize)
    ensures MaximumVolumeSize(blockSize) == blockSize * 0x8000_0000
    ensures DEFAULT_VOLUME_SIZE < MaximumVolumeSize(blockSize) <= 0x1_0000_0000_0000
  {
  }

  /** The bytes fields are int64; zero and negative values both mean "not set". */
  datatype CapacityRange = CapacityRange(required: int, limit: int)

  /** driver/controller.go, extractStorage; None stands for its error. */
  function ExtractStorage(range: Option<CapacityRange>, maximum: int): Option<int> {
    match range
    case None => Some(DEFAULT_VOLUME_SIZE)
    case Some(CapacityRange(required, limit)) =>
      var requiredSet := 0 < required;
      var limitSet := 0 < limit;
      if !requiredSet && !limitSet then Some(DEFAULT_VOLUME_SIZE)
      else if requiredSet && limitSet && limit < required then None
      else if requiredSet && !limitSet && required < MINIMUM_VOLUME_SIZE then None
      else if limitSet && limit < MINIMUM_VOLUME_SIZE then None
      else if requiredSet && required > maximum then None
      else if !requiredSet && limitSet && limit > maximum then None
      else if requiredSet && limitSet && required == limit then Some(required)
      else if requiredSet then Some(required)
      else if limitSet then Some(limit)
      else Some(DEFAULT_VOLUME_SIZE)
  }

  function RequiredOf(range: Option<CapacityRange>): int {
    if range.Some? && range.value.required > 0 then range.value.required else 0
  }

  function LimitOf(range: Option<CapacityRange>): int {
    if range.Some? && range.value.limit > 0 then range.value.limit else 0
  }

  /** The size a range asks for, whether or not it can be had. */
  function Wanted(range: Option<CapacityRange>): int {
    if RequiredOf(range) > 0 then RequiredOf(range)
    else if LimitOf(range) > 0 then LimitOf(range)
    else DEFAULT_VOLUME_SIZE
  }

  /** Something is set that lies below 4 MiB, and no limit of 4 MiB or more excuses it. */
  predicate TooSmall(range: Option<CapacityRange>) {
    || 0 < LimitOf(range) < MINIMUM_VOLUME_SIZE
    || (LimitOf(range) == 0 && 0 < RequiredOf(range) < MINIMUM_VOLUME_SIZE)
  }

  /**
   When a size is selected, and which one: the wanted size, between what is required and the
   limit. The maximum bounds what is asked for, not the default.
   */
  lemma SelectionSpecified(range: Option<CapacityRange>, maximum: int)
    ensures ExtractStorage(range, maximum).Some? <==>
            || (RequiredOf(range) == 0 && LimitOf(range) == 0)
            || (&& Wanted(range) <= maximum
                && (LimitOf(range) > 0 ==> Wanted(range) <= LimitOf(range))
                && !TooSmall(range))
    ensures ExtractStorage(range, maximum).Some? ==>
            var size := ExtractStorage(range, maximum).value;
            && size == Wanted(range)
            && 0 < size && RequiredOf(range) <= size
            && (5368709120 <= maximum || RequiredOf(range) > 0 || LimitOf(range) > 0 ==> size <= maximum)
            && (LimitOf(range) > 0 ==> size <= LimitOf(range))
            && (size < 4194304 <==>
                0 < RequiredOf(range) < 4194304 <= LimitOf(range))
    ensures RequiredOf(range) == 0 && LimitOf(range) == 0 ==> ExtractStorage(range, maximum) == Some(5368709120)
  {
  }

  /** Raising the maximum keeps every accepted request, with the same answer. */
  lemma RaisingTheMaximum(range: Option<CapacityRange>, lower: int, higher: int)
    requires lower <= higher && ExtractStorage(range, lower).Some?
    ensures ExtractStorage(range, higher) == ExtractStorage(range, lower)
  {
  }
}
