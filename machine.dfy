/** Fixed-width unsigned integers of the Rust code, as bounded subsets of `int`. */
module Machine {

  type uint8 = x: int | 0 <= x < 0x100

  type uint32 = x: int | 0 <= x < 0x1_0000_0000

  type uint64 = x: int | 0 <= x < 0x1_0000_0000_0000_0000
}
