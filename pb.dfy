/**
 * The protobuf messages the store works on, as values. Only the fields the store
 * interprets are modelled in detail; an absent sub-message is its default (zero) value.
 */
module Pb {

  /** Exclusive upper bound of Go's `uint64`. */
  const TWO_64: int := 0x1_0000_0000_0000_0000

  /** Go's `uint64`. */
  type U64 = x: int | 0 <= x < TWO_64

  /** `Memory_Unit`; `Unknown` is the enum's zero value and stands for every unrecognised code. */
  datatype MemoryUnit = Unknown | Bit | Byte | Kilobyte | Megabyte | Gigabyte | Terabyte

  /** A memory quantity: a count of some unit. */
  datatype Memory = Memory(value: U64, unit: MemoryUnit)

  /** The CPU description. Core counts are `uint32`, clock speeds `double` (modelled as `real`). */
  datatype Cpu = Cpu(brand: string, name: string, numberCores: nat, numberThreads: nat, minGhz: real, maxGhz: real)

  /** A laptop record; `id` is the key the store files it under. */
  datatype Laptop = Laptop(id: string, brand: string, name: string, cpu: Cpu, ram: Memory, priceUsd: real, releaseYear: nat)

  /** A search filter; an unset field has the protobuf zero value. */
  datatype Filter = Filter(maxPriceUsd: real, minCpuCores: nat, minCpuGhz: real, minRam: Memory)
}
