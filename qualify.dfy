/** The filter evaluator: does one laptop satisfy a search filter? */
module Qualify {
  import opened Pb
  import opened Units

  /**
   * `isQualified`: the four checks in the source's order, each rejecting on failure —
   * price ceiling, minimum core count, minimum base clock, minimum RAM in bits.
   */
  function IsQualified(filter: Filter, laptop: Laptop): (r: bool)
    ensures r <==>
      && laptop.priceUsd <= filter.maxPriceUsd
      && laptop.cpu.numberCores >= filter.minCpuCores
      && laptop.cpu.minGhz >= filter.minCpuGhz
      && ToBit(laptop.ram) >= ToBit(filter.minRam)
  {
    if laptop.priceUsd > filter.maxPriceUsd then false
    else if laptop.cpu.numberCores < filter.minCpuCores then false
    else if laptop.cpu.minGhz < filter.minCpuGhz then false
    else if ToBit(laptop.ram) < ToBit(filter.minRam) then false
    else true
  }

  /** `loose` asks no more than `strict` on every one of the four criteria. */
  predicate NoStricter(loose: Filter, strict: Filter)
  {
    && strict.maxPriceUsd <= loose.maxPriceUsd
    && loose.minCpuCores <= strict.minCpuCores
    && loose.minCpuGhz <= strict.minCpuGhz
    && ToBit(loose.minRam) <= ToBit(strict.minRam)
  }

  /** Relaxing a filter never loses a match. */
  lemma QualifiedUnderLooserFilter(loose: Filter, strict: Filter, laptop: Laptop)
    requires NoStricter(loose, strict)
    requires IsQualified(strict, laptop)
    ensures IsQualified(loose, laptop)
  {
  }

  /**
   * A filter whose fields are all left at their protobuf zero values admits exactly the
   * laptops that cost nothing: the zero price ceiling is a real bound.
   */
  lemma ZeroFilterAdmitsOnlyFree(laptop: Laptop)
    ensures IsQualified(Filter(0.0, 0, 0.0, Memory(0, Unknown)), laptop) <==> laptop.priceUsd <= 0.0 && laptop.cpu.minGhz >= 0.0
  {
  }

  /** A RAM bound of 1 GB and one of 1024 MB admit the same laptops. */
  lemma RamBoundUnitInsensitive(filter: Filter, laptop: Laptop)
    ensures IsQualified(filter.(minRam := Memory(1, Gigabyte)), laptop)
        <==> IsQualified(filter.(minRam := Memory(1024, Megabyte)), laptop)
  {
    GigabyteExample();
  }
}
