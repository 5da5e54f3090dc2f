/** Decoding of the Game Boy cartridge header: licensee, cartridge type, ROM and RAM sizes, destination and the
  * Super Game Boy and colour flags.  The header bytes the C code reads through the memory interface are the
  * fields of a Header record.  Each constant table of (id, value) records is held as two parallel sequences,
  * and every lookup is a first-match linear search over the ids. */
module GbRomInfo {

  datatype Option<T> = None | Some(value: T)

  type Byte = b: int | 0 <= b < 256

  /** The header bytes read: colour flag, new licensee code (two bytes), SGB function byte, cartridge type,
    * ROM size id, RAM size id, destination code and old licensee code. */
  datatype Header = Header(colourFlag: Byte, newLicenseMsb: Byte, newLicenseLsb: Byte, sgbFunction: Byte,
                           cartridgeType: Byte, romSizeId: Byte, ramSizeId: Byte, destination: Byte,
                           oldLicense: Byte)

  const NEW_LICENSE_ESCAPE := 0x33

  const LICENSE_IDS: seq<int> :=
    [0, 1, 8, 13, 18, 19, 20, 22, 24, 25, 28, 29, 30, 31, 32, 33, 34, 35, 37, 38, 39, 41, 42, 44, 46, 47, 49,
     50, 51, 52, 53, 54, 55, 56]

  const LICENSE_NAMES: seq<string> :=
    ["none", "nintendo", "capcom", "electronic arts", "hudsonsoft", "b-ai", "kss", "pow", "pcm complete",
     "san-x", "kemco japan", "seta", "viacom", "nintendo", "bandai", "ocean/acclaim", "konami", "hector",
     "taito", "hudson", "banpresto", "ubi soft", "atlus", "malibu", "angel", "pullet-proof", "irem",
     "absolute", "acclaim", "activision", "american sammy", "gametek", "park place", "ljn"]

  const OLD_LICENSE_IDS: seq<int> :=
    [0, 1, 8, 13, 18, 19, 24, 25, 28, 29, 30, 31, 32, 34, 35, 38, 39, 41, 42, 44, 46, 47, 50, 51, 52, 53, 54,
     55, 56]

  const OLD_LICENSE_NAMES: seq<string> :=
    ["none", "nintendo", "capcom", "electronic arts", "hudsonsoft", "itc entertainment", "pcm complete",
     "san-x", "kotobuki systems", "seta", "infogames", "nintendo", "bandai", "konami", "hector", "capcom",
     "banpresto", "ubi soft", "atlus", "malibu", "angel", "spectrum holoby", "absolute", "acclaim",
     "activision", "american sammy", "konami", "hi tech entertainment", "ljn"]

  const ROM_SIZE_IDS: seq<int> :=
    [0, 1, 2, 3, 4, 5, 6, 7, 8]

  const ROM_SIZE_KB: seq<int> :=
    [32, 64, 128, 256, 512, 1024, 2048, 4096, 8192]

  const CARTRIDGE_TYPE_IDS: seq<int> :=
    [0, 1, 2, 3, 5, 6, 8, 9, 11, 12, 13, 15, 16, 17, 18, 19, 25, 26, 27, 28, 29, 30, 32, 34, 252, 253, 254,
     255]

  const CARTRIDGE_TYPE_NAMES: seq<string> :=
    ["ROM", "ROM+MBC1", "ROM+MBC1+RAM", "ROM+MBC1+RAM+BATTERY", "ROM+MBC2+RAM", "ROM+MBC2+RAM+BATTERY",
     "ROM+RAM", "ROM+RAM+BATTERY", "ROM+MMM01", "ROM+MMM01+RAM", "ROM+MMM01+RAM+BATTERY",
     "ROM+MBC3+TIMER+BATTERY", "ROM+MBC3+TIMER+RAM+BATTERY", "ROM+MBC3", "ROM+MBC3+RAM",
     "ROM+MBC3+RAM+BATTERY", "ROM+MBC5", "ROM+MBC5+RAM", "ROM+MBC5+RAM+BATTERY", "ROM+MBC5+RUMBLE",
     "ROM+MBC5+RUMBLE+RAM", "ROM+MBC5+RUMBLE+RAM+BATTERY", "ROM+MBC6+RAM+BATTERY",
     "ROM+MBC7+RAM+BATTERY+ACCELEROMETER", "POCKET CAMERA", "BANDAI TAMA5", "HuC3+RAM+BATTERY+RTC",
     "HuC1+RAM+BATTERY"]

  const RAM_SAVE_SIZE_IDS: seq<int> :=
    [0, 1, 2, 3, 5]

  const RAM_SAVE_SIZE_KB: seq<int> :=
    [0, 2, 8, 32, 64]

  const UNKNOWN_RAM_SIZE := 255

  /** The position of the first id equal to `id`, searching from `from` on. */
  function FindFrom(ids: seq<int>, id: int, from: nat): (r: Option<nat>)
    requires from <= |ids|
    ensures r.Some? ==> from <= r.value < |ids| && ids[r.value] == id && forall k :: from <= k < r.value ==> ids[k] != id
    ensures r.None? ==> forall k :: from <= k < |ids| ==> ids[k] != id
    decreases |ids| - from
  {
    if from == |ids| then None
    else if ids[from] == id then Some(from)
    else FindFrom(ids, id, from + 1)
  }

  /** The position of the first id equal to `id`, the loop of each lookup. */
  function Find(ids: seq<int>, id: int): (r: Option<nat>)
    ensures r.Some? ==> r.value < |ids| && ids[r.value] == id && forall k :: 0 <= k < r.value ==> ids[k] != id
    ensures r.None? <==> id !in ids
  {
    FindFrom(ids, id, 0)
  }

  /** The name recorded with the first entry of id `id`; None when no entry has it. */
  function Lookup(ids: seq<int>, names: seq<string>, id: int): (r: Option<string>)
    requires |ids| == |names|
    ensures r.None? <==> id !in ids
    ensures r.Some? ==> exists k :: 0 <= k < |ids| && ids[k] == id && names[k] == r.value
  {
    var k := Find(ids, id);
    if k.None? then None else Some(names[k.value])
  }

  /** The ids strictly increase from each entry to the next. */
  predicate Increasing(ids: seq<int>)
  {
    forall k :: 0 < k < |ids| ==> ids[k - 1] < ids[k]
  }

  /** Increasing ids make any earlier entry's id smaller. */
  lemma {:induction false} IncreasingPairs(ids: seq<int>, j: nat, k: nat)
    requires Increasing(ids) && j < k < |ids|
    ensures ids[j] < ids[k]
    decreases k - j
  {
    if j + 1 < k {
      IncreasingPairs(ids, j, k - 1);
    }
  }

  /** With increasing ids, the lookup yields a name exactly when some entry records it with that id. */
  lemma LookupUnique(ids: seq<int>, names: seq<string>, id: int, name: string)
    requires |ids| == |names| && Increasing(ids)
    ensures Lookup(ids, names, id) == Some(name) <==> exists k :: 0 <= k < |ids| && ids[k] == id && names[k] == name
  {
    if exists k :: 0 <= k < |ids| && ids[k] == id && names[k] == name {
      var j :| 0 <= j < |ids| && ids[j] == id && names[j] == name;
      var k := Find(ids, id).value;
      if k < j {
        IncreasingPairs(ids, k, j);
      }
    }
  }

  lemma LicenseIdsIncreasing()
    ensures Increasing(LICENSE_IDS)
  {
  }

  lemma OldLicenseIdsIncreasing()
    ensures Increasing(OLD_LICENSE_IDS)
  {
  }

  /** The licensee id of the new-style code, `msb << 4 | (lsb & 0xF)` stored in a byte: the low nibble of the
    * first code byte above the low nibble of the second. */
  function NewLicenseId(h: Header): (id: Byte)
    ensures id / 16 == h.newLicenseMsb % 16 && id % 16 == h.newLicenseLsb % 16
  {
    var hi, lo := h.newLicenseMsb % 16, h.newLicenseLsb % 16;
    assert (h.newLicenseMsb * 16) % 256 == hi * 16 by {
      assert h.newLicenseMsb * 16 == (h.newLicenseMsb / 16) * 256 + hi * 16;
    }
    assert (hi * 16 + lo) / 16 == hi && (hi * 16 + lo) % 16 == lo;
    (h.newLicenseMsb * 16) % 256 + lo
  }

  /** The licensee name: with the escape byte 0x33 as old code, the new code's id looked up in the new table;
    * otherwise the old code looked up in the old table.  None is an unknown id. */
  function Licensee(h: Header): (r: Option<string>)
    ensures h.oldLicense == NEW_LICENSE_ESCAPE ==> r.None? == (NewLicenseId(h) !in LICENSE_IDS)
    ensures h.oldLicense != NEW_LICENSE_ESCAPE ==> r.None? == (h.oldLicense !in OLD_LICENSE_IDS)
  {
    if h.oldLicense == NEW_LICENSE_ESCAPE then Lookup(LICENSE_IDS, LICENSE_NAMES, NewLicenseId(h))
    else Lookup(OLD_LICENSE_IDS, OLD_LICENSE_NAMES, h.oldLicense)
  }

  /** A licensee name is returned exactly when the table the old code selects lists it under the id. */
  lemma LicenseeKnown(h: Header, name: string)
    ensures Licensee(h) == Some(name) <==>
              if h.oldLicense == NEW_LICENSE_ESCAPE then
                exists k :: 0 <= k < |LICENSE_IDS| && LICENSE_IDS[k] == NewLicenseId(h) && LICENSE_NAMES[k] == name
              else
                exists k :: 0 <= k < |OLD_LICENSE_IDS| && OLD_LICENSE_IDS[k] == h.oldLicense && OLD_LICENSE_NAMES[k] == name
  {
    LicenseIdsIncreasing();
    OldLicenseIdsIncreasing();
    if h.oldLicense == NEW_LICENSE_ESCAPE {
      LookupUnique(LICENSE_IDS, LICENSE_NAMES, NewLicenseId(h), name);
    } else {
      LookupUnique(OLD_LICENSE_IDS, OLD_LICENSE_NAMES, h.oldLicense, name);
    }
  }

  function Pow2(n: nat): (r: nat)
    ensures r >= 1
  {
    if n == 0 then 1 else 2 * Pow2(n - 1)
  }

  /** The ROM size in KB for a size id: the loop finds the id, then indexes the table by the id itself; 0 for an
    * unknown id. */
  function IdToRomSize(id: Byte): (r: int)
    ensures r >= 0 && (id !in ROM_SIZE_IDS ==> r == 0)
  {
    var k := Find(ROM_SIZE_IDS, id);
    if k.None? then 0
    else if id < |ROM_SIZE_KB| then ROM_SIZE_KB[id]
    else 0
  }

  /** Every entry of the ROM size table sits at the position equal to its id, so indexing by the id is
    * safe, and the size is 32 << id KB for ids 0 to 8 and 0 otherwise. */
  lemma RomSizeIsPowerOfTwo(id: Byte)
    ensures IdToRomSize(id) == if id <= 8 then 32 * Pow2(id) else 0
  {
    var k := Find(ROM_SIZE_IDS, id);
    if id <= 8 {
      assert ROM_SIZE_IDS[id] == id;
      assert k == Some(id) by {
        assert forall j :: 0 <= j < |ROM_SIZE_IDS| ==> ROM_SIZE_IDS[j] == j;
      }
      RomSizeKb(id);
    } else {
      assert id !in ROM_SIZE_IDS;
    }
  }

  /** Entry id of the ROM size table is 32 << id. */
  lemma RomSizeKb(id: nat)
    requires id <= 8
    ensures ROM_SIZE_KB[id] == 32 * Pow2(id)
  {
    assert Pow2(0) == 1 && Pow2(1) == 2 && Pow2(2) == 4 && Pow2(3) == 8 && Pow2(4) == 16;
    assert Pow2(5) == 32 && Pow2(6) == 64 && Pow2(7) == 128 && Pow2(8) == 256;
  }

  /** The ROM size of the loaded cartridge. */
  function RomSize(h: Header): (r: int)
    ensures r == if h.romSizeId <= 8 then 32 * Pow2(h.romSizeId) else 0
  {
    RomSizeIsPowerOfTwo(h.romSizeId);
    IdToRomSize(h.romSizeId)
  }

  /** The cartridge type name, None for an unlisted type byte. */
  function CartridgeType(h: Header): (r: Option<string>)
    ensures r.None? <==> h.cartridgeType !in CARTRIDGE_TYPE_IDS
    ensures r.Some? ==> exists k :: 0 <= k < |CARTRIDGE_TYPE_IDS| && CARTRIDGE_TYPE_IDS[k] == h.cartridgeType
                                    && CARTRIDGE_TYPE_NAMES[k] == r.value
  {
    Lookup(CARTRIDGE_TYPE_IDS, CARTRIDGE_TYPE_NAMES, h.cartridgeType)
  }

  /** What reading the RAM save size table as the C code does yields: the size found, or a read past the end
    * of the table. */
  datatype TableRead = Entry(kb: int) | PastEnd

  /** The RAM save size lookup as written: the loop finds the id but then indexes the table by the id, not by
    * the position it was found at. */
  function IdToRamSaveSizeAsWritten(id: Byte): (r: TableRead)
    ensures r.PastEnd? <==> id in RAM_SAVE_SIZE_IDS && id >= |RAM_SAVE_SIZE_KB|
  {
    var k := Find(RAM_SAVE_SIZE_IDS, id);
    if k.None? then Entry(UNKNOWN_RAM_SIZE)
    else if id < |RAM_SAVE_SIZE_KB| then Entry(RAM_SAVE_SIZE_KB[id])
    else PastEnd
  }

  /** Id 5, a listed id, makes the as-written lookup read one entry past the five-entry table. */
  lemma RamSaveSizeId5ReadsPastEnd()
    ensures Find(RAM_SAVE_SIZE_IDS, 5) == Some(4)
    ensures IdToRamSaveSizeAsWritten(5) == PastEnd
  {
    assert RAM_SAVE_SIZE_IDS[4] == 5;
  }

  /** The RAM save size in KB for a size id, read from the entry the search found; 255 for an unknown id. */
  function IdToRamSaveSize(id: Byte): (r: int)
    ensures id !in RAM_SAVE_SIZE_IDS ==> r == UNKNOWN_RAM_SIZE
    ensures id in RAM_SAVE_SIZE_IDS ==> exists k :: 0 <= k < |RAM_SAVE_SIZE_IDS| && RAM_SAVE_SIZE_IDS[k] == id && RAM_SAVE_SIZE_KB[k] == r
  {
    var k := Find(RAM_SAVE_SIZE_IDS, id);
    if k.None? then UNKNOWN_RAM_SIZE else RAM_SAVE_SIZE_KB[k.value]
  }

  /** The corrected lookup gives 64 KB for id 5 and agrees with the code as written on every other id. */
  lemma RamSaveSizeCorrected(id: Byte)
    ensures IdToRamSaveSize(5) == 64
    ensures id != 5 ==> IdToRamSaveSizeAsWritten(id) == Entry(IdToRamSaveSize(id))
  {
    assert RAM_SAVE_SIZE_IDS[4] == 5;
    assert forall j :: 0 <= j < 4 ==> RAM_SAVE_SIZE_IDS[j] == j;
  }

  /** The RAM save size of the loaded cartridge. */
  function RamSaveSize(h: Header): (r: int)
    ensures h.ramSizeId !in RAM_SAVE_SIZE_IDS ==> r == UNKNOWN_RAM_SIZE
    ensures h.ramSizeId in RAM_SAVE_SIZE_IDS ==>
              exists k :: 0 <= k < |RAM_SAVE_SIZE_IDS| && RAM_SAVE_SIZE_IDS[k] == h.ramSizeId && RAM_SAVE_SIZE_KB[k] == r
  {
    IdToRamSaveSize(h.ramSizeId)
  }

  /** Any nonzero destination byte means a Non-Japanese cartridge. */
  function DestinationCode(h: Header): (r: string)
    ensures r == "Japanese" || r == "Non-Japanese"
    ensures r == "Japanese" <==> h.destination == 0
  {
    if h.destination != 0 then "Non-Japanese" else "Japanese"
  }

  /** Super Game Boy features are flagged by the byte 0x03 alone. */
  predicate HasSgbFeatures(h: Header): (b: bool)
    ensures b <==> h.sgbFunction == 0x03
  {
    h.sgbFunction == 0x03
  }

  /** Colour-compatible cartridges carry the flag byte 0x80, and never also count as colour-only. */
  predicate IsColourCompatible(h: Header): (b: bool)
    ensures b <==> h.colourFlag == 0x80
    ensures b ==> h.colourFlag != 0xC0
  {
    h.colourFlag == 0x80
  }

  /** Colour-only cartridges carry the flag byte 0xC0, and never also count as colour-compatible. */
  predicate IsColourOnly(h: Header): (b: bool)
    ensures b <==> h.colourFlag == 0xC0
    ensures b ==> h.colourFlag != 0x80
  {
    h.colourFlag == 0xC0
  }

  /** The destination is Japanese exactly for a zero byte, and a cartridge is never both colour-compatible
    * and colour-only. */
  lemma HeaderFlags(h: Header)
    ensures DestinationCode(h) == "Japanese" <==> h.destination == 0
    ensures !(IsColourCompatible(h) && IsColourOnly(h))
  {
  }
}
