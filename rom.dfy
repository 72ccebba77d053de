/** The cartridge header parser of src/rom.rs (`Rom::new`), over the whole
    cartridge file given as a byte sequence instead of a seekable reader.
    The header occupies bytes 0x100-0x14F (the Pan Docs cartridge-header
    layout); each field is read in order from a cursor, the header checksum
    is folded over 0x134-0x14C, and the file length must equal the size
    that the ROM-size code declares. */
module Rom {
  import opened Common

  /** The cartridge types the parser accepts (`MbcType`), by header code. */
  datatype MbcType =
    | RomOnly | Mbc1 | Mbc1Ram | Mbc1RamBattery | Mbc2 | Mbc2Battery
    | RomRam | RomRamBattery | Mmm01 | Mmm01Ram | Mmm01RamBattery
    | Mbc3 | Mbc3Ram | Mbc3RamBattery

  /** The discriminant of each cartridge type. */
  function MbcTypeCode(t: MbcType): bv8 {
    match t
    case RomOnly => 0x00
    case Mbc1 => 0x01
    case Mbc1Ram => 0x02
    case Mbc1RamBattery => 0x03
    case Mbc2 => 0x05
    case Mbc2Battery => 0x06
    case RomRam => 0x08
    case RomRamBattery => 0x09
    case Mmm01 => 0x0B
    case Mmm01Ram => 0x0C
    case Mmm01RamBattery => 0x0D
    case Mbc3 => 0x11
    case Mbc3Ram => 0x12
    case Mbc3RamBattery => 0x13
  }

  /** `FromPrimitive::from_u8` for `MbcType`. */
  function MbcTypeFromByte(b: bv8): (r: Option<MbcType>)
    ensures r.Some? ==> MbcTypeCode(r.value) == b
    ensures r.None? <==> b !in {0x00, 0x01, 0x02, 0x03, 0x05, 0x06, 0x08, 0x09, 0x0B, 0x0C, 0x0D, 0x11, 0x12, 0x13}
  {
    match b
    case 0x00 => Some(RomOnly)
    case 0x01 => Some(Mbc1)
    case 0x02 => Some(Mbc1Ram)
    case 0x03 => Some(Mbc1RamBattery)
    case 0x05 => Some(Mbc2)
    case 0x06 => Some(Mbc2Battery)
    case 0x08 => Some(RomRam)
    case 0x09 => Some(RomRamBattery)
    case 0x0B => Some(Mmm01)
    case 0x0C => Some(Mmm01Ram)
    case 0x0D => Some(Mmm01RamBattery)
    case 0x11 => Some(Mbc3)
    case 0x12 => Some(Mbc3Ram)
    case 0x13 => Some(Mbc3RamBattery)
    case _ => None
  }

  /** Decoding a type's own code gives the type back. */
  lemma MbcTypeRoundTrip(t: MbcType)
    ensures MbcTypeFromByte(MbcTypeCode(t)) == Some(t)
  {
  }

  /** The destination codes (`DestinationCode`). */
  datatype DestinationCode = Japanese | NonJapanese

  /** `FromPrimitive::from_u8` for `DestinationCode`: only 0x00 and 0x01 are values. */
  function DestinationFromByte(b: bv8): (r: Option<DestinationCode>)
    ensures r.Some? <==> b == 0x00 || b == 0x01
    ensures r == Some(Japanese) <==> b == 0x00
  {
    if b == 0x00 then Some(Japanese)
    else if b == 0x01 then Some(NonJapanese)
    else None
  }

  /** The SGB flag byte: 0x00 is false, 0x03 is true, anything else is rejected. */
  function SgbFromByte(b: bv8): (r: Option<bool>)
    ensures r.Some? <==> b == 0x00 || b == 0x03
    ensures r == Some(true) <==> b == 0x03
  {
    if b == 0x00 then Some(false)
    else if b == 0x03 then Some(true)
    else None
  }

  /** The ROM-size code: `(32 * 1024) << n` for n in 0..=8. The codes
      0x52-0x54 give the truncation of 1.1, 1.2 and 1.5 MiB computed in f64. */
  function RomSizeFromCode(code: bv8): (r: Option<nat>)
    ensures code <= 8 ==> r == Some(32768 * Pow2(code as nat))
    ensures r.None? <==> !(code <= 8 || 0x52 <= code <= 0x54)
  {
    if code <= 8 then Some(32768 * Pow2(code as nat))
    else if code == 0x52 then Some(1153433)
    else if code == 0x53 then Some(1258291)
    else if code == 0x54 then Some(1572864)
    else None
  }

  /** The RAM-size code, with the byte counts src/rom.rs:155-160 gives
      (multiples of MiB). */
  function RamSizeFromCode(code: bv8): (r: Option<nat>)
    ensures r.Some? <==> code <= 5
  {
    match code
    case 0x00 => Some(0)
    case 0x01 => Some(2 * 1024 * 1024)
    case 0x02 => Some(8 * 1024 * 1024)
    case 0x03 => Some(32 * 1024 * 1024)
    case 0x04 => Some(128 * 1024 * 1024)
    case 0x05 => Some(64 * 1024 * 1024)
    case _ => None
  }

  /** The header fields whose bytes can run out. */
  datatype HeaderField =
    | EntryPointField | LogoField | TitleField | NewLicenseeField | SgbField
    | CartridgeTypeField | RomSizeField | RamSizeField | DestinationField
    | OldLicenseeField | MaskRomVersionField | HeaderChecksumField | GlobalChecksumField

  datatype RomError =
    | UnexpectedEof(field: HeaderField)
    | UnknownSgbFlag(sgb: bv8)
    | UnknownMbcType(mbc: bv8)
    | UnknownRomSize(romCode: bv8)
    | UnknownRamSize(ramCode: bv8)
    | UnknownDestinationCode(dest: bv8)
    | InvalidChecksum(expected: bv8, actual: bv8)
    | InvalidRomSize(expectedSize: nat, actualSize: nat)

  /** A parsed cartridge (`Rom`). */
  datatype Rom = Rom(
    entryPoint: seq<bv8>,
    logo: seq<bv8>,
    title: seq<bv8>,
    newLicenseeCode: seq<bv8>,
    sgbFlag: bool,
    mbcType: MbcType,
    romSize: nat,
    ramSize: nat,
    destinationCode: DestinationCode,
    oldLicenseeCode: bv8,
    maskRomVersionNumber: bv8,
    headerChecksum: bv8,
    globalChecksum: seq<bv8>,
    data: seq<bv8>)

  /** `Rom::default()`. */
  function DefaultRom(): Rom {
    Rom(seq(4, _ => 0), seq(0x30, _ => 0), seq(0x10, _ => 0), seq(2, _ => 0), false, RomOnly,
        0, 0, Japanese, 0, 0, 0, seq(2, _ => 0), [])
  }

  /** The checksum fold `x := x - b - 1` (wrapping), from x = 0, over `bytes`. */
  function Checksum(bytes: seq<bv8>): bv8 {
    if bytes == [] then 0 else Checksum(bytes[..|bytes| - 1]) - bytes[|bytes| - 1] - 1
  }

  /** One more byte of input is one more step of the fold. */
  lemma ChecksumStep(file: seq<bv8>, lo: nat, hi: nat)
    requires lo <= hi < |file|
    ensures Checksum(file[lo..hi + 1]) == Checksum(file[lo..hi]) - file[hi] - 1
  {
    var s := file[lo..hi + 1];
    assert s[..|s| - 1] == file[lo..hi];
  }

  /** The header as `Rom::new` reads it: fields in order from offset 0x100,
      each check failing with its own error, the first failure winning. */
  function Header(file: seq<bv8>): Result<Rom, RomError> {
    if |file| < 0x104 then Err(UnexpectedEof(EntryPointField))
    else if |file| < 0x134 then Err(UnexpectedEof(LogoField))
    else if |file| < 0x144 then Err(UnexpectedEof(TitleField))
    else if |file| < 0x146 then Err(UnexpectedEof(NewLicenseeField))
    else if |file| <= 0x146 then Err(UnexpectedEof(SgbField))
    else if SgbFromByte(file[0x146]).None? then Err(UnknownSgbFlag(file[0x146]))
    else if |file| <= 0x147 then Err(UnexpectedEof(CartridgeTypeField))
    else if MbcTypeFromByte(file[0x147]).None? then Err(UnknownMbcType(file[0x147]))
    else if |file| <= 0x148 then Err(UnexpectedEof(RomSizeField))
    else if RomSizeFromCode(file[0x148]).None? then Err(UnknownRomSize(file[0x148]))
    else if |file| <= 0x149 then Err(UnexpectedEof(RamSizeField))
    else if RamSizeFromCode(file[0x149]).None? then Err(UnknownRamSize(file[0x149]))
    else if |file| <= 0x14A then Err(UnexpectedEof(DestinationField))
    else if DestinationFromByte(file[0x14A]).None? then Err(UnknownDestinationCode(file[0x14A]))
    else if |file| <= 0x14B then Err(UnexpectedEof(OldLicenseeField))
    else if |file| <= 0x14C then Err(UnexpectedEof(MaskRomVersionField))
    else if |file| <= 0x14D then Err(UnexpectedEof(HeaderChecksumField))
    else if |file| < 0x150 then Err(UnexpectedEof(GlobalChecksumField))
    else if file[0x14D] != Checksum(file[0x134..0x14D])
    then Err(InvalidChecksum(file[0x14D], Checksum(file[0x134..0x14D])))
    else if RomSizeFromCode(file[0x148]).value != |file|
    then Err(InvalidRomSize(RomSizeFromCode(file[0x148]).value, |file|))
    else Ok(Rom(file[0x100..0x104], file[0x104..0x134], file[0x134..0x144], file[0x144..0x146],
                SgbFromByte(file[0x146]).value, MbcTypeFromByte(file[0x147]).value,
                RomSizeFromCode(file[0x148]).value, RamSizeFromCode(file[0x149]).value,
                DestinationFromByte(file[0x14A]).value, file[0x14B], file[0x14C], file[0x14D],
                file[0x14E..0x150], file))
  }

  /** Parsing succeeds exactly when the file holds the whole header, every
      enumerated byte is valid, the checksum matches and the length is the
      declared ROM size. */
  lemma HeaderOkIff(file: seq<bv8>)
    ensures Header(file).Ok? <==>
      && |file| >= 0x150
      && (file[0x146] == 0x00 || file[0x146] == 0x03)
      && MbcTypeFromByte(file[0x147]).Some?
      && RomSizeFromCode(file[0x148]).Some?
      && file[0x149] <= 5
      && (file[0x14A] == 0x00 || file[0x14A] == 0x01)
      && file[0x14D] == Checksum(file[0x134..0x14D])
      && RomSizeFromCode(file[0x148]).value == |file|
  {
  }

  /** A parsed cartridge takes each field from its fixed offset, keeps the
      whole file as its data, and has at least 32 KiB of data. */
  lemma HeaderFields(file: seq<bv8>)
    requires Header(file).Ok?
    ensures var rom := Header(file).value;
      && rom.entryPoint == file[0x100..0x104]
      && rom.logo == file[0x104..0x134]
      && rom.title == file[0x134..0x144]
      && rom.newLicenseeCode == file[0x144..0x146]
      && rom.sgbFlag == (file[0x146] == 0x03)
      && MbcTypeCode(rom.mbcType) == file[0x147]
      && rom.ramSize == RamSizeFromCode(file[0x149]).value
      && (rom.destinationCode == Japanese <==> file[0x14A] == 0x00)
      && rom.oldLicenseeCode == file[0x14B]
      && rom.maskRomVersionNumber == file[0x14C]
      && rom.headerChecksum == file[0x14D]
      && rom.globalChecksum == file[0x14E..0x150]
      && rom.data == file
      && rom.romSize == |rom.data| >= 0x8000
  {
  }

  /** Input that ends before the header does is rejected as truncated. */
  lemma ShortFileIsEof(file: seq<bv8>)
    requires |file| < 0x150
    ensures Header(file).Err?
    ensures Header(file).error.UnexpectedEof? || Header(file).error.UnknownSgbFlag?
         || Header(file).error.UnknownMbcType? || Header(file).error.UnknownRomSize?
         || Header(file).error.UnknownRamSize? || Header(file).error.UnknownDestinationCode?
  {
  }

  /** The checksum loop of `Rom::new`: a second pass over 0134-014C. */
  method HeaderChecksum(file: seq<bv8>) returns (chksum: bv8)
    requires |file| >= 0x14D
    ensures chksum == Checksum(file[0x134..0x14D])
  {
    var pos := 0x134;
    chksum := 0;
    while pos <= 0x14C
      invariant 0x134 <= pos <= 0x14D
      invariant chksum == Checksum(file[0x134..pos])
    {
      ChecksumStep(file, 0x134, pos);
      chksum := chksum - file[pos] - 1;
      pos := pos + 1;
    }
  }

  /** `Rom::new`: a cursor advancing field by field over the file, then the
      checksum loop and the length check. */
  method New(file: seq<bv8>) returns (r: Result<Rom, RomError>)
    ensures r == Header(file)
  {
    var rom := DefaultRom();
    var pos := 0x100;

    // 0100-0103: entry point
    if |file| < pos + 4 { return Err(UnexpectedEof(EntryPointField)); }
    rom := rom.(entryPoint := file[pos..pos + 4]);
    pos := pos + 4;
    // 0104-0133: logo
    if |file| < pos + 0x30 { return Err(UnexpectedEof(LogoField)); }
    rom := rom.(logo := file[pos..pos + 0x30]);
    pos := pos + 0x30;
    // 0134-0143: title
    if |file| < pos + 0x10 { return Err(UnexpectedEof(TitleField)); }
    rom := rom.(title := file[pos..pos + 0x10]);
    pos := pos + 0x10;
    // 0144-0145: new licensee code
    if |file| < pos + 2 { return Err(UnexpectedEof(NewLicenseeField)); }
    rom := rom.(newLicenseeCode := file[pos..pos + 2]);
    pos := pos + 2;
    // 0146: SGB flag
    if |file| <= pos { return Err(UnexpectedEof(SgbField)); }
    var sgb := SgbFromByte(file[pos]);
    if sgb.None? { return Err(UnknownSgbFlag(file[pos])); }
    rom := rom.(sgbFlag := sgb.value);
    pos := pos + 1;
    // 0147: cartridge type
    if |file| <= pos { return Err(UnexpectedEof(CartridgeTypeField)); }
    var typ := MbcTypeFromByte(file[pos]);
    if typ.None? { return Err(UnknownMbcType(file[pos])); }
    rom := rom.(mbcType := typ.value);
    pos := pos + 1;
    // 0148: ROM size
    if |file| <= pos { return Err(UnexpectedEof(RomSizeField)); }
    var romSize := RomSizeFromCode(file[pos]);
    if romSize.None? { return Err(UnknownRomSize(file[pos])); }
    rom := rom.(romSize := romSize.value);
    pos := pos + 1;
    // 0149: RAM size
    if |file| <= pos { return Err(UnexpectedEof(RamSizeField)); }
    var ramSize := RamSizeFromCode(file[pos]);
    if ramSize.None? { return Err(UnknownRamSize(file[pos])); }
    rom := rom.(ramSize := ramSize.value);
    pos := pos + 1;
    // 014A: destination code
    if |file| <= pos { return Err(UnexpectedEof(DestinationField)); }
    var dest := DestinationFromByte(file[pos]);
    if dest.None? { return Err(UnknownDestinationCode(file[pos])); }
    rom := rom.(destinationCode := dest.value);
    pos := pos + 1;
    // 014B: old licensee code
    if |file| <= pos { return Err(UnexpectedEof(OldLicenseeField)); }
    rom := rom.(oldLicenseeCode := file[pos]);
    pos := pos + 1;
    // 014C: mask ROM version number
    if |file| <= pos { return Err(UnexpectedEof(MaskRomVersionField)); }
    rom := rom.(maskRomVersionNumber := file[pos]);
    pos := pos + 1;
    // 014D: header checksum
    if |file| <= pos { return Err(UnexpectedEof(HeaderChecksumField)); }
    rom := rom.(headerChecksum := file[pos]);
    pos := pos + 1;
    // 014E-014F: global checksum
    if |file| < pos + 2 { return Err(UnexpectedEof(GlobalChecksumField)); }
    rom := rom.(globalChecksum := file[pos..pos + 2]);

    var chksum := HeaderChecksum(file);
    if rom.headerChecksum != chksum {
      return Err(InvalidChecksum(rom.headerChecksum, chksum));
    }

    rom := rom.(data := file);
    if rom.romSize != |rom.data| {
      return Err(InvalidRomSize(rom.romSize, |rom.data|));
    }
    r := Ok(rom);
  }
}
