/** The `enable_s0` command: find the Fixed ACPI Description Table through the RSDP and the XSDT, set its
  * LOW_POWER_S0_IDLE_CAPABLE flag (bit 21 of Flags, section 5.2.9 of the ACPI Specification 6.x) and
  * recompute its checksum so that the table's bytes sum to 0 modulo 256 (section 5.2.6).
  *
  * Physical memory is a map from the address of a table to the array of its bytes; a pointer the C code
  * follows to an address that holds no table, or a field it reads past the end of a table's bytes, is the
  * explicit outcome BadAccess (undefined behaviour in C). `grub_machine_acpi_get_rsdpv2` is a parameter. */
module S0Enabler {

  type Byte = b: int | 0 <= b < 256

  /** The fields of the version 2 RSDP the command reads. */
  datatype Rsdp = Rsdp(revision: Byte, xsdtAddr: nat)

  datatype Option<T> = None | Some(value: T)

  datatype Outcome =
    | RsdpNotFound
    | XsdtNotFound
    | InvalidXsdt
    | FadtNotFound
    | Patched(entry: nat, addr: nat)
    | BadAccess

  const HEADER_SIZE := 36
  const LENGTH_OFFSET := 4
  const CHECKSUM_OFFSET := 9
  const FLAGS_OFFSET := 112
  /** Bit 21 of Flags, LOW_POWER_S0_IDLE_CAPABLE. */
  const S0_IDLE_BIT := 0x20_0000
  const FADT_MIN_SIZE := FLAGS_OFFSET + 4
  const SIG_XSDT: seq<Byte> := [0x58, 0x53, 0x44, 0x54]
  const SIG_FACP: seq<Byte> := [0x46, 0x41, 0x43, 0x50]
  /** 64-bit `grub_size_t` and 32-bit `int`. */
  const SIZE_RANGE := 0x1_0000_0000_0000_0000
  const INT_RANGE := 0x1_0000_0000

  function Le32(s: seq<Byte>, o: nat): (v: nat)
    requires o + 4 <= |s|
    ensures v < 0x1_0000_0000
  {
    s[o] as int + 0x100 * (s[o + 1] as int) + 0x1_0000 * (s[o + 2] as int) + 0x100_0000 * (s[o + 3] as int)
  }

  function Le64(s: seq<Byte>, o: nat): (v: nat)
    requires o + 8 <= |s|
    ensures v < SIZE_RANGE
  {
    Le32(s, o) + 0x1_0000_0000 * Le32(s, o + 4)
  }

  /** `entry_cnt = (length - sizeof header) / 8`: the subtraction is in 64-bit `grub_size_t` and the
    * quotient is truncated to a 32-bit `int`, so a length below the header size gives a negative count. */
  function EntryCount(length: nat): (n: int)
    requires length < 0x1_0000_0000
    ensures length >= HEADER_SIZE ==> n == (length - HEADER_SIZE) / 8
    ensures length < HEADER_SIZE ==> n < 0
  {
    var d := (length - HEADER_SIZE) % SIZE_RANGE;
    var t := (d / 8) % INT_RANGE;
    if length < HEADER_SIZE then
      assert d == SIZE_RANGE - (HEADER_SIZE - length);
      assert d / 8 == SIZE_RANGE / 8 - (HEADER_SIZE - length + 7) / 8;
      assert t == INT_RANGE - (HEADER_SIZE - length + 7) / 8;
      if t >= INT_RANGE / 2 then t - INT_RANGE else t
    else
      if t >= INT_RANGE / 2 then t - INT_RANGE else t
  }

  function Sum(s: seq<Byte>, n: nat): (r: nat)
    requires n <= |s|
  {
    if n == 0 then 0 else Sum(s, n - 1) + s[n - 1]
  }

  /** `grub_byte_checksum`: the sum of the first n bytes modulo 256 (its code is not part of this model). */
  function ByteChecksum(s: seq<Byte>, n: nat): (c: Byte)
    requires n <= |s|
    ensures c == Sum(s, n) % 256
  {
    Sum(s, n) % 256
  }

  /** Changing one byte among the first n changes their sum by the difference; a byte past them, not at all. */
  lemma {:induction false} SumUpdate(s: seq<Byte>, k: nat, v: Byte, n: nat)
    requires k < |s| && n <= |s|
    ensures k < n ==> Sum(s[k := v], n) == Sum(s, n) - s[k] + v
    ensures k >= n ==> Sum(s[k := v], n) == Sum(s, n)
  {
    if n > 0 {
      SumUpdate(s, k, v, n - 1);
    }
  }

  /** The Flags word with bit 21 set: the 21 bits below it and the 10 bits above it are those of f. */
  function WithS0Idle(f: nat): (r: nat)
    requires f < 0x1_0000_0000
    ensures r < 0x1_0000_0000
    ensures (r / S0_IDLE_BIT) % 2 == 1
    ensures r % S0_IDLE_BIT == f % S0_IDLE_BIT && r / (2 * S0_IDLE_BIT) == f / (2 * S0_IDLE_BIT)
    ensures (f / S0_IDLE_BIT) % 2 == 1 ==> r == f
  {
    if (f / S0_IDLE_BIT) % 2 == 1 then f else f + S0_IDLE_BIT
  }

  /** `flags |= 1 << 21` as it lands on the third byte of the little-endian Flags field: bit 5 of that byte. */
  function WithBit5(b: Byte): (r: Byte)
  {
    if (b / 32) % 2 == 1 then b else b + 32
  }

  predicate IsFacp(t: seq<Byte>)
  {
    |t| >= 4 && t[..4] == SIG_FACP
  }

  /** The FADT bytes the patch touches all lie inside the table: the Flags field and the summed length. */
  predicate Patchable(t: seq<Byte>)
  {
    |t| >= FADT_MIN_SIZE && Le32(t, LENGTH_OFFSET) <= |t|
  }

  function Flags(t: seq<Byte>): nat
    requires |t| >= FADT_MIN_SIZE
  {
    Le32(t, FLAGS_OFFSET)
  }

  /** The patched FADT: Flags bit 21 set, then the checksum byte chosen so that the table sums to 0. */
  function Patch(t: seq<Byte>): (r: seq<Byte>)
    requires Patchable(t)
    ensures |r| == |t| && Patchable(r)
    ensures forall k :: 0 <= k < |t| && k != CHECKSUM_OFFSET && k != FLAGS_OFFSET + 2 ==> r[k] == t[k]
  {
    var t1 := t[FLAGS_OFFSET + 2 := WithBit5(t[FLAGS_OFFSET + 2])];
    var t2 := t1[CHECKSUM_OFFSET := 0];
    t2[CHECKSUM_OFFSET := (-(ByteChecksum(t2, Le32(t2, LENGTH_OFFSET)) as int)) % 256]
  }

  /** Setting bit 5 of the third byte of a little-endian word sets bit 21 of the word. */
  lemma SetBitInWord(t: seq<Byte>)
    requires |t| >= FADT_MIN_SIZE
    ensures Flags(t[FLAGS_OFFSET + 2 := WithBit5(t[FLAGS_OFFSET + 2])]) == WithS0Idle(Flags(t))
  {
    var o := FLAGS_OFFSET;
    var t1 := t[o + 2 := WithBit5(t[o + 2])];
    var low, x, y := t[o] as int + 0x100 * (t[o + 1] as int), t[o + 2] as int, t[o + 3] as int;
    var xh, xb, xl := x / 64, (x / 32) % 2, x % 32;
    assert x == 64 * xh + 32 * xb + xl;
    var m := 2 * (xh + 4 * y) + xb;
    assert Flags(t) == S0_IDLE_BIT * m + (low + 0x1_0000 * xl);
    assert 0 <= low + 0x1_0000 * xl < S0_IDLE_BIT;
    assert Flags(t) / S0_IDLE_BIT == m;
    assert m % 2 == xb;
    if xb == 1 {
      assert t1 == t;
    } else {
      assert Flags(t1) == Flags(t) + S0_IDLE_BIT;
    }
  }

  /** Section 5.2.9 of the ACPI Specification: Flags gets bit 21 set and every other bit of it is kept. */
  lemma PatchSetsS0Idle(t: seq<Byte>)
    requires Patchable(t)
    ensures Flags(Patch(t)) == WithS0Idle(Flags(t))
    ensures (Flags(Patch(t)) / S0_IDLE_BIT) % 2 == 1
  {
    var t1 := t[FLAGS_OFFSET + 2 := WithBit5(t[FLAGS_OFFSET + 2])];
    SetBitInWord(t);
    assert Patch(t)[FLAGS_OFFSET..FLAGS_OFFSET + 4] == t1[FLAGS_OFFSET..FLAGS_OFFSET + 4];
  }

  /** Section 5.2.6 of the ACPI Specification: the entire table, including the checksum byte, sums to 0
    * modulo 256 (once the table is long enough to include that byte). */
  lemma PatchChecksum(t: seq<Byte>)
    requires Patchable(t) && Le32(t, LENGTH_OFFSET) > CHECKSUM_OFFSET
    ensures Sum(Patch(t), Le32(Patch(t), LENGTH_OFFSET)) % 256 == 0
  {
    var t1 := t[FLAGS_OFFSET + 2 := WithBit5(t[FLAGS_OFFSET + 2])];
    var t2 := t1[CHECKSUM_OFFSET := 0];
    var n := Le32(t2, LENGTH_OFFSET);
    var c := (-(ByteChecksum(t2, n) as int)) % 256;
    assert Patch(t) == t2[CHECKSUM_OFFSET := c];
    SumUpdate(t2, CHECKSUM_OFFSET, c, n);
    assert Sum(Patch(t), n) == Sum(t2, n) + c;
  }

  /** Running the patch on a patched table gives the same table. */
  lemma PatchIdempotent(t: seq<Byte>)
    requires Patchable(t)
    ensures Patch(Patch(t)) == Patch(t)
  {
    var p := Patch(t);
    var n := Le32(t, LENGTH_OFFSET);
    assert Le32(p, LENGTH_OFFSET) == n;
    var t1 := t[FLAGS_OFFSET + 2 := WithBit5(t[FLAGS_OFFSET + 2])];
    var t2 := t1[CHECKSUM_OFFSET := 0];
    assert WithBit5(p[FLAGS_OFFSET + 2]) == p[FLAGS_OFFSET + 2];
    var p1 := p[FLAGS_OFFSET + 2 := WithBit5(p[FLAGS_OFFSET + 2])];
    assert p1 == p;
    assert p[CHECKSUM_OFFSET := 0] == t2;
  }

  /** The address held by XSDT entry i. */
  function EntryAddr(x: seq<Byte>, i: nat): nat
    requires HEADER_SIZE + 8 * i + 8 <= |x|
  {
    Le64(x, HEADER_SIZE + 8 * i)
  }

  /** Entry i can be followed to a table whose signature can be compared. */
  predicate Readable(x: seq<Byte>, mem: map<nat, seq<Byte>>, i: nat)
  {
    HEADER_SIZE + 8 * i + 8 <= |x| && EntryAddr(x, i) in mem && |mem[EntryAddr(x, i)]| >= 4
  }

  /** The scan of entries i .. count - 1, in order, stopping at the first FADT. */
  function Scan(x: seq<Byte>, mem: map<nat, seq<Byte>>, i: nat, count: int): (r: Outcome)
    decreases count - i
    ensures r.FadtNotFound? || r.BadAccess? || r.Patched?
    ensures r.Patched? ==> i <= r.entry < count && Readable(x, mem, r.entry)
                           && r.addr == EntryAddr(x, r.entry) && IsFacp(mem[r.addr]) && Patchable(mem[r.addr])
    ensures r.Patched? || r.FadtNotFound? ==>
              forall j :: i <= j < (if r.Patched? then r.entry else count) ==>
                Readable(x, mem, j) && !IsFacp(mem[EntryAddr(x, j)])
    ensures r.FadtNotFound? <==>
              forall j :: i <= j < count ==> Readable(x, mem, j) && !IsFacp(mem[EntryAddr(x, j)])
  {
    if i >= count then FadtNotFound
    else if !Readable(x, mem, i) then BadAccess
    else if !IsFacp(mem[EntryAddr(x, i)]) then Scan(x, mem, i + 1, count)
    else if Patchable(mem[EntryAddr(x, i)]) then Patched(i, EntryAddr(x, i))
    else BadAccess
  }

  /** What `grub_cmd_s0enabler` does, given the RSDP it was handed and the contents of memory. */
  function Command(rsdp: Option<Rsdp>, mem: map<nat, seq<Byte>>): (r: Outcome)
    ensures r.RsdpNotFound? <==> rsdp.None?
    ensures r.XsdtNotFound? <==> rsdp.Some? && rsdp.value.revision < 2
    ensures r.Patched? ==> rsdp.Some? && rsdp.value.revision >= 2 && rsdp.value.xsdtAddr in mem
    ensures r.Patched? || r.FadtNotFound? ==>
              rsdp.Some? && rsdp.value.xsdtAddr in mem && |mem[rsdp.value.xsdtAddr]| >= 4
              && mem[rsdp.value.xsdtAddr][..4] == SIG_XSDT
    ensures r.InvalidXsdt? <==>
              rsdp.Some? && rsdp.value.revision >= 2 && rsdp.value.xsdtAddr in mem
              && |mem[rsdp.value.xsdtAddr]| >= 4 && mem[rsdp.value.xsdtAddr][..4] != SIG_XSDT
  {
    if rsdp.None? then RsdpNotFound
    else if rsdp.value.revision < 2 then XsdtNotFound
    else if rsdp.value.xsdtAddr !in mem || |mem[rsdp.value.xsdtAddr]| < 4 then BadAccess
    else
      var x := mem[rsdp.value.xsdtAddr];
      if x[..4] != SIG_XSDT then InvalidXsdt
      else if |x| < LENGTH_OFFSET + 4 then BadAccess
      else Scan(x, mem, 0, EntryCount(Le32(x, LENGTH_OFFSET)))
  }

  /** An XSDT too short to hold its own header declares no entries: the command reports no FADT. */
  lemma ShortXsdtHasNoEntries(rsdp: Rsdp, mem: map<nat, seq<Byte>>)
    requires rsdp.revision >= 2 && rsdp.xsdtAddr in mem
    requires |mem[rsdp.xsdtAddr]| >= 8 && mem[rsdp.xsdtAddr][..4] == SIG_XSDT
    requires Le32(mem[rsdp.xsdtAddr], LENGTH_OFFSET) < HEADER_SIZE
    ensures Command(Some(rsdp), mem) == FadtNotFound
  {
  }

  function Contents(mem: map<nat, array<Byte>>): (c: map<nat, seq<Byte>>)
    reads mem.Values
    ensures c.Keys == mem.Keys && forall k :: k in mem ==> c[k] == mem[k][..]
  {
    map k | k in mem :: mem[k][..]
  }

  /** `grub_cmd_s0enabler`: the outcome is that of Command, the FADT found (and only that table) holds the
    * patched bytes, and memory is otherwise unchanged. */
  method EnableS0(rsdp: Option<Rsdp>, mem: map<nat, array<Byte>>) returns (r: Outcome)
    modifies mem.Values
    ensures r == Command(rsdp, old(Contents(mem)))
    ensures r.Patched? ==> r.addr in mem && mem[r.addr][..] == Patch(old(mem[r.addr][..]))
    ensures forall k :: k in mem && (r.Patched? ==> mem[k] != mem[r.addr]) ==> mem[k][..] == old(mem[k][..])
  {
    ghost var snap := Contents(mem);
    if rsdp.None? {
      return RsdpNotFound;
    }
    if rsdp.value.revision < 2 {
      return XsdtNotFound;
    }
    if rsdp.value.xsdtAddr !in mem || mem[rsdp.value.xsdtAddr].Length < 4 {
      return BadAccess;
    }
    var xa := mem[rsdp.value.xsdtAddr];
    if xa[..4] != SIG_XSDT {
      return InvalidXsdt;
    }
    if xa.Length < LENGTH_OFFSET + 4 {
      return BadAccess;
    }
    var x := xa[..];
    var count := EntryCount(Le32(x, LENGTH_OFFSET));
    var i := 0;
    while i < count
      invariant 0 <= i && (count >= 0 ==> i <= count)
      invariant Scan(x, snap, 0, count) == Scan(x, snap, i, count)
      invariant Contents(mem) == snap
    {
      if HEADER_SIZE + 8 * i + 8 > |x| || EntryAddr(x, i) !in mem || mem[EntryAddr(x, i)].Length < 4 {
        return BadAccess;
      }
      var addr := EntryAddr(x, i);
      var t := mem[addr];
      if t[..4] == SIG_FACP {
        if !Patchable(t[..]) {
          return BadAccess;
        }
        PatchFadt(t);
        return Patched(i, addr);
      }
      i := i + 1;
    }
    return FadtNotFound;
  }

  /** The in-place patch of one FADT: `fadt->flags |= 1 << 21`, the checksum cleared, then set to
    * `1 + ~grub_byte_checksum(fadt, length)`, that is, minus the byte sum modulo 256. */
  method PatchFadt(t: array<Byte>)
    requires Patchable(t[..])
    modifies t
    ensures t[..] == Patch(old(t[..]))
  {
    t[FLAGS_OFFSET + 2] := WithBit5(t[FLAGS_OFFSET + 2]);
    t[CHECKSUM_OFFSET] := 0;
    var sum := ByteChecksum(t[..], Le32(t[..], LENGTH_OFFSET));
    t[CHECKSUM_OFFSET] := (-(sum as int)) % 256;
  }
}
