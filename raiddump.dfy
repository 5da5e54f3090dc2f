/** The `raiddump SOURCE TARGET [sample]` command: check the arguments, open the two whole-disk devices named
  * by `(name)`, and copy the source to the target sector by sector until the copy length is reached or a
  * sector read or write fails.
  *
  * The disk layer is modelled by Disk: a sector access succeeds exactly when the sector exists and is not
  * faulty; `grub_disk_open` is a lookup of the device name in a map of the disks present. */
module RaidDump {

  type Byte = b: int | 0 <= b < 256
  type Sector = seq<Byte>

  const SECTOR_SIZE := 512
  const SAMPLE_SECTORS := 20480
  /** GRUB_DISK_SIZE_UNKNOWN, the all-ones 64-bit value. */
  const SIZE_UNKNOWN := 0xFFFF_FFFF_FFFF_FFFF

  class Disk {
    const sectors: array<Sector>
    /** What `grub_disk_get_size` reports, in sectors. */
    const size: nat
    const faulty: set<nat>

    constructor(sectors: array<Sector>, size: nat, faulty: set<nat>)
      ensures this.sectors == sectors && this.size == size && this.faulty == faulty
    {
      this.sectors := sectors;
      this.size := size;
      this.faulty := faulty;
    }

    /** A read or write of sector i succeeds. */
    predicate CanAccess(i: nat)
    {
      i < sectors.Length && i !in faulty
    }
  }

  datatype Outcome =
    | WrongArgumentCount
    | UnknownDumpMode
    | MemoryDevice
    | SourceNotDevice
    | TargetNotDevice
    | SourceOpenFailed
    | TargetOpenFailed
    | SourceSizeUnknown
    | TargetSizeUnknown
    | Copied(sectors: nat, bytes: nat)

  /** The arguments accepted: source name, target name and the sample flag. */
  datatype Request = Request(source: string, target: string, sample: bool)

  datatype Validation = Valid(req: Request) | Invalid(err: Outcome)

  predicate IsDeviceName(s: string)
  {
    |s| > 0 && s[0] == '(' && s[|s| - 1] == ')'
  }

  /** The device opened for `(name)`: the text strictly inside the parentheses. */
  function DeviceOf(s: string): (d: string)
    requires IsDeviceName(s)
    ensures |d| == |s| - 2 && s == "(" + d + ")"
  {
    s[1..|s| - 1]
  }

  /** The argument checks, in the order the command makes them. */
  function Validate(args: seq<string>): (v: Validation)
    ensures v.Valid? <==> (|args| == 2 || (|args| == 3 && args[2] == "sample"))
                          && args[0] != "(mem)" && args[1] != "(mem)"
                          && IsDeviceName(args[0]) && IsDeviceName(args[1])
    ensures v.Valid? ==> v.req == Request(args[0], args[1], |args| == 3)
    ensures v.Invalid? && |args| != 2 && |args| != 3 ==> v.err == WrongArgumentCount
    ensures v.Invalid? ==> v.err != SourceOpenFailed && !v.err.Copied?
  {
    if |args| != 2 && |args| != 3 then Invalid(WrongArgumentCount)
    else if |args| == 3 && args[2] != "sample" then Invalid(UnknownDumpMode)
    else if args[0] == "(mem)" || args[1] == "(mem)" then Invalid(MemoryDevice)
    else if !IsDeviceName(args[0]) then Invalid(SourceNotDevice)
    else if !IsDeviceName(args[1]) then Invalid(TargetNotDevice)
    else Valid(Request(args[0], args[1], |args| == 3))
  }

  /** The sectors copied from sector i on: the first sector at or after i, before len, whose read from src or
    * write to dst fails, or len when there is none. */
  function Extent(src: Disk, dst: Disk, len: nat, i: nat): (n: nat)
    requires i <= len
    decreases len - i
    ensures i <= n <= len
    ensures n == i || (n <= src.sectors.Length && n <= dst.sectors.Length)
    ensures forall j :: i <= j < n ==> src.CanAccess(j) && dst.CanAccess(j)
    ensures n < len ==> !(src.CanAccess(n) && dst.CanAccess(n))
  {
    if i == len || !(src.CanAccess(i) && dst.CanAccess(i)) then i else Extent(src, dst, len, i + 1)
  }

  /** The copy length: the source's size, or 20480 sectors in sample mode whatever the size. */
  function CopyLength(sourceSize: nat, sample: bool): (n: nat)
    ensures sample ==> n == SAMPLE_SECTORS
    ensures !sample ==> n == sourceSize
  {
    if sample then SAMPLE_SECTORS else sourceSize
  }

  /** What `grub_cmd_raiddump` reports for these arguments and disks. */
  function Command(args: seq<string>, disks: map<string, Disk>): (r: Outcome)
    ensures r.Copied? ==> Validate(args).Valid? && r.bytes == SECTOR_SIZE * r.sectors
  {
    match Validate(args)
    case Invalid(err) => err
    case Valid(req) =>
      var si, so := DeviceOf(req.source), DeviceOf(req.target);
      if si !in disks then SourceOpenFailed
      else if so !in disks then TargetOpenFailed
      else if disks[si].size == SIZE_UNKNOWN then SourceSizeUnknown
      else if disks[so].size == SIZE_UNKNOWN then TargetSizeUnknown
      else
        var n := Extent(disks[si], disks[so], CopyLength(disks[si].size, req.sample), 0);
        Copied(n, SECTOR_SIZE * n)
  }

  /** An unknown size on either device is reported and nothing is copied. */
  lemma UnknownSizeCopiesNothing(args: seq<string>, disks: map<string, Disk>)
    requires Validate(args).Valid?
    requires DeviceOf(args[0]) in disks && DeviceOf(args[1]) in disks
    requires disks[DeviceOf(args[0])].size == SIZE_UNKNOWN || disks[DeviceOf(args[1])].size == SIZE_UNKNOWN
    ensures Command(args, disks) == SourceSizeUnknown || Command(args, disks) == TargetSizeUnknown
  {
  }

  /** The copy loop: sector j of dst receives sector j of src for every j copied, other sectors of dst are
    * left as they were, and the count returned is Extent. */
  method CopySectors(src: Disk, dst: Disk, len: nat) returns (copied: nat, written: nat)
    modifies dst.sectors
    ensures copied == Extent(src, dst, len, 0) && written == SECTOR_SIZE * copied
    ensures copied <= src.sectors.Length && copied <= dst.sectors.Length
    ensures forall j :: 0 <= j < dst.sectors.Length ==>
              dst.sectors[j] == if j < copied then old(src.sectors[j]) else old(dst.sectors[j])
  {
    var i := 0;
    written := 0;
    while i < len
      invariant 0 <= i <= len && written == SECTOR_SIZE * i
      invariant Extent(src, dst, len, 0) == Extent(src, dst, len, i)
      invariant forall j :: 0 <= j < i ==> src.CanAccess(j) && dst.CanAccess(j)
      invariant forall j :: 0 <= j < dst.sectors.Length ==>
                  dst.sectors[j] == if j < i then old(src.sectors[j]) else old(dst.sectors[j])
      invariant forall k :: i <= k < src.sectors.Length ==> src.sectors[k] == old(src.sectors[k])
    {
      if !src.CanAccess(i) {
        break;
      }
      var buf := src.sectors[i];
      if !dst.CanAccess(i) {
        break;
      }
      dst.sectors[i] := buf;
      written := written + SECTOR_SIZE;
      i := i + 1;
    }
    copied := i;
  }

  /** `grub_cmd_raiddump`. */
  method RaidDumpCommand(args: seq<string>, disks: map<string, Disk>) returns (r: Outcome)
    modifies set d | d in disks.Values :: d.sectors
    ensures r == Command(args, disks)
    ensures r.Copied? ==> r.sectors <= disks[DeviceOf(args[0])].sectors.Length
    ensures r.Copied? ==> var dst := disks[DeviceOf(args[1])].sectors; var src := disks[DeviceOf(args[0])].sectors;
              forall j :: 0 <= j < dst.Length ==> dst[j] == if j < r.sectors then old(src[j]) else old(dst[j])
    ensures forall d :: d in disks.Values && (r.Copied? ==> d.sectors != disks[DeviceOf(args[1])].sectors) ==>
              d.sectors[..] == old(d.sectors[..])
  {
    var v := Validate(args);
    if v.Invalid? {
      return v.err;
    }
    var si, so := DeviceOf(v.req.source), DeviceOf(v.req.target);
    if si !in disks {
      return SourceOpenFailed;
    }
    if so !in disks {
      return TargetOpenFailed;
    }
    var src, dst := disks[si], disks[so];
    if src.size == SIZE_UNKNOWN {
      return SourceSizeUnknown;
    }
    if dst.size == SIZE_UNKNOWN {
      return TargetSizeUnknown;
    }
    var len := CopyLength(src.size, v.req.sample);
    var copied, written := CopySectors(src, dst, len);
    return Copied(copied, written);
  }
}
