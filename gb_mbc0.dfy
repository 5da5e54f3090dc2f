/** Memory bank controller 0 of a 32 KB cartridge: reads at addresses up to and including 0x8000 index the
  * ROM image, reads above yield 0, and writes have no effect.  The ROM image is the byte sequence the
  * cartridge was loaded from; its allocation size is not part of this model, so a read the image does not
  * cover is an explicit out-of-range outcome. */
module GbMbc0 {

  datatype Option<T> = None | Some(value: T)

  const ROM_WINDOW_END := 0x8000
  const ADDRESS_RANGE := 0x1_0000

  /** `read_MBC0`: the ROM byte at `addr` for addr <= 0x8000 (None when the image has no such byte), else 0. */
  function Read(rom: seq<bv8>, addr: nat): (r: Option<bv8>)
    requires addr < ADDRESS_RANGE
    ensures addr > ROM_WINDOW_END ==> r == Some(0)
    ensures addr <= ROM_WINDOW_END ==> (r.Some? <==> addr < |rom|) && (r.Some? ==> r.value == rom[addr])
  {
    if addr <= ROM_WINDOW_END then
      if addr < |rom| then Some(rom[addr]) else None
    else Some(0)
  }

  /** `write_MBC0`: the controller state, the ROM image, is left as it was. */
  function Write(rom: seq<bv8>, addr: nat, val: bv8): (r: seq<bv8>)
    requires addr < ADDRESS_RANGE
  {
    rom
  }

  /** A read after any write returns what it returned before the write. */
  lemma ReadAfterWrite(rom: seq<bv8>, waddr: nat, val: bv8, raddr: nat)
    requires waddr < ADDRESS_RANGE && raddr < ADDRESS_RANGE
    ensures Write(rom, waddr, val) == rom
    ensures Read(Write(rom, waddr, val), raddr) == Read(rom, raddr)
  {
  }

  /** For an image of exactly 32 KB, the two banks 0x0000-0x7FFF read back the image, the boundary address
    * 0x8000 that the guard admits lies one past it, and every higher address reads 0. */
  lemma ThirtyTwoKilobyteImage(rom: seq<bv8>, addr: nat)
    requires |rom| == 0x8000 && addr < ADDRESS_RANGE
    ensures addr < 0x8000 ==> Read(rom, addr) == Some(rom[addr])
    ensures Read(rom, 0x8000) == None
    ensures addr > 0x8000 ==> Read(rom, addr) == Some(0)
  {
  }
}
