/** The table-driven 16-bit checksum.

    The loop indexes both tables by the high byte, so the high byte evolves alone and the low
    byte only accumulates.  What an error does to the checksum depends on the error pattern
    alone, which decides exactly which short errors are caught. */
module Crc16 {
  /** Table `auchCRCHi`: what an index adds to the low byte of the checksum. */
  function TableHi(i: bv8): bv8 {
    match i >> 4
    case 0x0 => (
      match i & 0xF
      case 0x0 => 0x00 case 0x1 => 0xC1 case 0x2 => 0x81 case 0x3 => 0x40 case 0x4 => 0x01 case 0x5 => 0xC0 case 0x6 => 0x80 case 0x7 => 0x41
      case 0x8 => 0x01 case 0x9 => 0xC0 case 0xA => 0x80 case 0xB => 0x41 case 0xC => 0x00 case 0xD => 0xC1 case 0xE => 0x81 case _ => 0x40)
    case 0x1 => (
      match i & 0xF
      case 0x0 => 0x01 case 0x1 => 0xC0 case 0x2 => 0x80 case 0x3 => 0x41 case 0x4 => 0x00 case 0x5 => 0xC1 case 0x6 => 0x81 case 0x7 => 0x40
      case 0x8 => 0x00 case 0x9 => 0xC1 case 0xA => 0x81 case 0xB => 0x40 case 0xC => 0x01 case 0xD => 0xC0 case 0xE => 0x80 case _ => 0x41)
    case 0x2 => (
      match i & 0xF
      case 0x0 => 0x01 case 0x1 => 0xC0 case 0x2 => 0x80 case 0x3 => 0x41 case 0x4 => 0x00 case 0x5 => 0xC1 case 0x6 => 0x81 case 0x7 => 0x40
      case 0x8 => 0x00 case 0x9 => 0xC1 case 0xA => 0x81 case 0xB => 0x40 case 0xC => 0x01 case 0xD => 0xC0 case 0xE => 0x80 case _ => 0x41)
    case 0x3 => (
      match i & 0xF
      case 0x0 => 0x00 case 0x1 => 0xC1 case 0x2 => 0x81 case 0x3 => 0x40 case 0x4 => 0x01 case 0x5 => 0xC0 case 0x6 => 0x80 case 0x7 => 0x41
      case 0x8 => 0x01 case 0x9 => 0xC0 case 0xA => 0x80 case 0xB => 0x41 case 0xC => 0x00 case 0xD => 0xC1 case 0xE => 0x81 case _ => 0x40)
    case 0x4 => (
      match i & 0xF
      case 0x0 => 0x01 case 0x1 => 0xC0 case 0x2 => 0x80 case 0x3 => 0x41 case 0x4 => 0x00 case 0x5 => 0xC1 case 0x6 => 0x81 case 0x7 => 0x40
      case 0x8 => 0x00 case 0x9 => 0xC1 case 0xA => 0x81 case 0xB => 0x40 case 0xC => 0x01 case 0xD => 0xC0 case 0xE => 0x80 case _ => 0x41)
    case 0x5 => (
      match i & 0xF
      case 0x0 => 0x00 case 0x1 => 0xC1 case 0x2 => 0x81 case 0x3 => 0x40 case 0x4 => 0x01 case 0x5 => 0xC0 case 0x6 => 0x80 case 0x7 => 0x41
      case 0x8 => 0x01 case 0x9 => 0xC0 case 0xA => 0x80 case 0xB => 0x41 case 0xC => 0x00 case 0xD => 0xC1 case 0xE => 0x81 case _ => 0x40)
    case 0x6 => (
      match i & 0xF
      case 0x0 => 0x00 case 0x1 => 0xC1 case 0x2 => 0x81 case 0x3 => 0x40 case 0x4 => 0x01 case 0x5 => 0xC0 case 0x6 => 0x80 case 0x7 => 0x41
      case 0x8 => 0x01 case 0x9 => 0xC0 case 0xA => 0x80 case 0xB => 0x41 case 0xC => 0x00 case 0xD => 0xC1 case 0xE => 0x81 case _ => 0x40)
    case 0x7 => (
      match i & 0xF
      case 0x0 => 0x01 case 0x1 => 0xC0 case 0x2 => 0x80 case 0x3 => 0x41 case 0x4 => 0x00 case 0x5 => 0xC1 case 0x6 => 0x81 case 0x7 => 0x40
      case 0x8 => 0x00 case 0x9 => 0xC1 case 0xA => 0x81 case 0xB => 0x40 case 0xC => 0x01 case 0xD => 0xC0 case 0xE => 0x80 case _ => 0x41)
    case 0x8 => (
      match i & 0xF
      case 0x0 => 0x01 case 0x1 => 0xC0 case 0x2 => 0x80 case 0x3 => 0x41 case 0x4 => 0x00 case 0x5 => 0xC1 case 0x6 => 0x81 case 0x7 => 0x40
      case 0x8 => 0x00 case 0x9 => 0xC1 case 0xA => 0x81 case 0xB => 0x40 case 0xC => 0x01 case 0xD => 0xC0 case 0xE => 0x80 case _ => 0x41)
    case 0x9 => (
      match i & 0xF
      case 0x0 => 0x00 case 0x1 => 0xC1 case 0x2 => 0x81 case 0x3 => 0x40 case 0x4 => 0x01 case 0x5 => 0xC0 case 0x6 => 0x80 case 0x7 => 0x41
      case 0x8 => 0x01 case 0x9 => 0xC0 case 0xA => 0x80 case 0xB => 0x41 case 0xC => 0x00 case 0xD => 0xC1 case 0xE => 0x81 case _ => 0x40)
    case 0xA => (
      match i & 0xF
      case 0x0 => 0x00 case 0x1 => 0xC1 case 0x2 => 0x81 case 0x3 => 0x40 case 0x4 => 0x01 case 0x5 => 0xC0 case 0x6 => 0x80 case 0x7 => 0x41
      case 0x8 => 0x01 case 0x9 => 0xC0 case 0xA => 0x80 case 0xB => 0x41 case 0xC => 0x00 case 0xD => 0xC1 case 0xE => 0x81 case _ => 0x40)
    case 0xB => (
      match i & 0xF
      case 0x0 => 0x01 case 0x1 => 0xC0 case 0x2 => 0x80 case 0x3 => 0x41 case 0x4 => 0x00 case 0x5 => 0xC1 case 0x6 => 0x81 case 0x7 => 0x40
      case 0x8 => 0x00 case 0x9 => 0xC1 case 0xA => 0x81 case 0xB => 0x40 case 0xC => 0x01 case 0xD => 0xC0 case 0xE => 0x80 case _ => 0x41)
    case 0xC => (
      match i & 0xF
      case 0x0 => 0x00 case 0x1 => 0xC1 case 0x2 => 0x81 case 0x3 => 0x40 case 0x4 => 0x01 case 0x5 => 0xC0 case 0x6 => 0x80 case 0x7 => 0x41
      case 0x8 => 0x01 case 0x9 => 0xC0 case 0xA => 0x80 case 0xB => 0x41 case 0xC => 0x00 case 0xD => 0xC1 case 0xE => 0x81 case _ => 0x40)
    case 0xD => (
      match i & 0xF
      case 0x0 => 0x01 case 0x1 => 0xC0 case 0x2 => 0x80 case 0x3 => 0x41 case 0x4 => 0x00 case 0x5 => 0xC1 case 0x6 => 0x81 case 0x7 => 0x40
      case 0x8 => 0x00 case 0x9 => 0xC1 case 0xA => 0x81 case 0xB => 0x40 case 0xC => 0x01 case 0xD => 0xC0 case 0xE => 0x80 case _ => 0x41)
    case 0xE => (
      match i & 0xF
      case 0x0 => 0x01 case 0x1 => 0xC0 case 0x2 => 0x80 case 0x3 => 0x41 case 0x4 => 0x00 case 0x5 => 0xC1 case 0x6 => 0x81 case 0x7 => 0x40
      case 0x8 => 0x00 case 0x9 => 0xC1 case 0xA => 0x81 case 0xB => 0x40 case 0xC => 0x01 case 0xD => 0xC0 case 0xE => 0x80 case _ => 0x41)
    case _ => (
      match i & 0xF
      case 0x0 => 0x00 case 0x1 => 0xC1 case 0x2 => 0x81 case 0x3 => 0x40 case 0x4 => 0x01 case 0x5 => 0xC0 case 0x6 => 0x80 case 0x7 => 0x41
      case 0x8 => 0x01 case 0x9 => 0xC0 case 0xA => 0x80 case 0xB => 0x41 case 0xC => 0x00 case 0xD => 0xC1 case 0xE => 0x81 case _ => 0x40)
  }

  /** Table `auchCRCLo`: the next high byte of the checksum. */
  function TableLo(i: bv8): bv8 {
    match i >> 4
    case 0x0 => (
      match i & 0xF
      case 0x0 => 0x00 case 0x1 => 0xC0 case 0x2 => 0xC1 case 0x3 => 0x01 case 0x4 => 0xC3 case 0x5 => 0x03 case 0x6 => 0x02 case 0x7 => 0xC2
      case 0x8 => 0xC6 case 0x9 => 0x06 case 0xA => 0x07 case 0xB => 0xC7 case 0xC => 0x05 case 0xD => 0xC5 case 0xE => 0xC4 case _ => 0x04)
    case 0x1 => (
      match i & 0xF
      case 0x0 => 0xCC case 0x1 => 0x0C case 0x2 => 0x0D case 0x3 => 0xCD case 0x4 => 0x0F case 0x5 => 0xCF case 0x6 => 0xCE case 0x7 => 0x0E
      case 0x8 => 0x0A case 0x9 => 0xCA case 0xA => 0xCB case 0xB => 0x0B case 0xC => 0xC9 case 0xD => 0x09 case 0xE => 0x08 case _ => 0xC8)
    case 0x2 => (
      match i & 0xF
      case 0x0 => 0xD8 case 0x1 => 0x18 case 0x2 => 0x19 case 0x3 => 0xD9 case 0x4 => 0x1B case 0x5 => 0xDB case 0x6 => 0xDA case 0x7 => 0x1A
      case 0x8 => 0x1E case 0x9 => 0xDE case 0xA => 0xDF case 0xB => 0x1F case 0xC => 0xDD case 0xD => 0x1D case 0xE => 0x1C case _ => 0xDC)
    case 0x3 => (
      match i & 0xF
      case 0x0 => 0x14 case 0x1 => 0xD4 case 0x2 => 0xD5 case 0x3 => 0x15 case 0x4 => 0xD7 case 0x5 => 0x17 case 0x6 => 0x16 case 0x7 => 0xD6
      case 0x8 => 0xD2 case 0x9 => 0x12 case 0xA => 0x13 case 0xB => 0xD3 case 0xC => 0x11 case 0xD => 0xD1 case 0xE => 0xD0 case _ => 0x10)
    case 0x4 => (
      match i & 0xF
      case 0x0 => 0xF0 case 0x1 => 0x30 case 0x2 => 0x31 case 0x3 => 0xF1 case 0x4 => 0x33 case 0x5 => 0xF3 case 0x6 => 0xF2 case 0x7 => 0x32
      case 0x8 => 0x36 case 0x9 => 0xF6 case 0xA => 0xF7 case 0xB => 0x37 case 0xC => 0xF5 case 0xD => 0x35 case 0xE => 0x34 case _ => 0xF4)
    case 0x5 => (
      match i & 0xF
      case 0x0 => 0x3C case 0x1 => 0xFC case 0x2 => 0xFD case 0x3 => 0x3D case 0x4 => 0xFF case 0x5 => 0x3F case 0x6 => 0x3E case 0x7 => 0xFE
      case 0x8 => 0xFA case 0x9 => 0x3A case 0xA => 0x3B case 0xB => 0xFB case 0xC => 0x39 case 0xD => 0xF9 case 0xE => 0xF8 case _ => 0x38)
    case 0x6 => (
      match i & 0xF
      case 0x0 => 0x28 case 0x1 => 0xE8 case 0x2 => 0xE9 case 0x3 => 0x29 case 0x4 => 0xEB case 0x5 => 0x2B case 0x6 => 0x2A case 0x7 => 0xEA
      case 0x8 => 0xEE case 0x9 => 0x2E case 0xA => 0x2F case 0xB => 0xEF case 0xC => 0x2D case 0xD => 0xED case 0xE => 0xEC case _ => 0x2C)
    case 0x7 => (
      match i & 0xF
      case 0x0 => 0xE4 case 0x1 => 0x24 case 0x2 => 0x25 case 0x3 => 0xE5 case 0x4 => 0x27 case 0x5 => 0xE7 case 0x6 => 0xE6 case 0x7 => 0x26
      case 0x8 => 0x22 case 0x9 => 0xE2 case 0xA => 0xE3 case 0xB => 0x23 case 0xC => 0xE1 case 0xD => 0x21 case 0xE => 0x20 case _ => 0xE0)
    case 0x8 => (
      match i & 0xF
      case 0x0 => 0xA0 case 0x1 => 0x60 case 0x2 => 0x61 case 0x3 => 0xA1 case 0x4 => 0x63 case 0x5 => 0xA3 case 0x6 => 0xA2 case 0x7 => 0x62
      case 0x8 => 0x66 case 0x9 => 0xA6 case 0xA => 0xA7 case 0xB => 0x67 case 0xC => 0xA5 case 0xD => 0x65 case 0xE => 0x64 case _ => 0xA4)
    case 0x9 => (
      match i & 0xF
      case 0x0 => 0x6C case 0x1 => 0xAC case 0x2 => 0xAD case 0x3 => 0x6D case 0x4 => 0xAF case 0x5 => 0x6F case 0x6 => 0x6E case 0x7 => 0xAE
      case 0x8 => 0xAA case 0x9 => 0x6A case 0xA => 0x6B case 0xB => 0xAB case 0xC => 0x69 case 0xD => 0xA9 case 0xE => 0xA8 case _ => 0x68)
    case 0xA => (
      match i & 0xF
      case 0x0 => 0x78 case 0x1 => 0xB8 case 0x2 => 0xB9 case 0x3 => 0x79 case 0x4 => 0xBB case 0x5 => 0x7B case 0x6 => 0x7A case 0x7 => 0xBA
      case 0x8 => 0xBE case 0x9 => 0x7E case 0xA => 0x7F case 0xB => 0xBF case 0xC => 0x7D case 0xD => 0xBD case 0xE => 0xBC case _ => 0x7C)
    case 0xB => (
      match i & 0xF
      case 0x0 => 0xB4 case 0x1 => 0x74 case 0x2 => 0x75 case 0x3 => 0xB5 case 0x4 => 0x77 case 0x5 => 0xB7 case 0x6 => 0xB6 case 0x7 => 0x76
      case 0x8 => 0x72 case 0x9 => 0xB2 case 0xA => 0xB3 case 0xB => 0x73 case 0xC => 0xB1 case 0xD => 0x71 case 0xE => 0x70 case _ => 0xB0)
    case 0xC => (
      match i & 0xF
      case 0x0 => 0x50 case 0x1 => 0x90 case 0x2 => 0x91 case 0x3 => 0x51 case 0x4 => 0x93 case 0x5 => 0x53 case 0x6 => 0x52 case 0x7 => 0x92
      case 0x8 => 0x96 case 0x9 => 0x56 case 0xA => 0x57 case 0xB => 0x97 case 0xC => 0x55 case 0xD => 0x95 case 0xE => 0x94 case _ => 0x54)
    case 0xD => (
      match i & 0xF
      case 0x0 => 0x9C case 0x1 => 0x5C case 0x2 => 0x5D case 0x3 => 0x9D case 0x4 => 0x5F case 0x5 => 0x9F case 0x6 => 0x9E case 0x7 => 0x5E
      case 0x8 => 0x5A case 0x9 => 0x9A case 0xA => 0x9B case 0xB => 0x5B case 0xC => 0x99 case 0xD => 0x59 case 0xE => 0x58 case _ => 0x98)
    case 0xE => (
      match i & 0xF
      case 0x0 => 0x88 case 0x1 => 0x48 case 0x2 => 0x49 case 0x3 => 0x89 case 0x4 => 0x4B case 0x5 => 0x8B case 0x6 => 0x8A case 0x7 => 0x4A
      case 0x8 => 0x4E case 0x9 => 0x8E case 0xA => 0x8F case 0xB => 0x4F case 0xC => 0x8D case 0xD => 0x4D case 0xE => 0x4C case _ => 0x8C)
    case _ => (
      match i & 0xF
      case 0x0 => 0x44 case 0x1 => 0x84 case 0x2 => 0x85 case 0x3 => 0x45 case 0x4 => 0x87 case 0x5 => 0x47 case 0x6 => 0x46 case 0x7 => 0x86
      case 0x8 => 0x82 case 0x9 => 0x42 case 0xA => 0x43 case 0xB => 0x83 case 0xC => 0x41 case 0xD => 0x81 case 0xE => 0x80 case _ => 0x40)
  }

  function Xor(a: bv8, b: bv8): bv8 {
    a ^ b
  }

  /** The two bytes the loop carries. */
  datatype Crc = Crc(hi: bv8, lo: bv8)

  const START := Crc(0xFF, 0xFF)
  const ZERO := Crc(0, 0)

  function Step(c: Crc, b: bv8): Crc {
    var i := Xor(c.hi, b);
    Crc(TableLo(i), Xor(c.lo, TableHi(i)))
  }

  function Fold(c: Crc, data: seq<bv8>): Crc
    decreases |data|
  {
    if data == [] then c else Fold(Step(c, data[0]), data[1..])
  }

  function Word(c: Crc): bv16 {
    (c.hi as bv16 << 8) | c.lo as bv16
  }

  function Checksum(data: seq<bv8>): bv16 {
    Word(Fold(START, data))
  }

  /** The checksum loop over the first `size` bytes of a buffer. */
  method CalcCrc16(data: array<bv8>, size: nat) returns (crc: bv16)
    requires size <= data.Length
    ensures crc == Checksum(data[..size])
  {
    hide TableLo, TableHi;
    var hi: bv8, lo: bv8 := 0xFF, 0xFF;
    var next := 0;
    while next < size
      invariant next <= size
      invariant Fold(Crc(hi, lo), data[next..size]) == Fold(START, data[..size])
    {
      assert data[next..size][1..] == data[next + 1..size];
      var index := hi ^ data[next];
      lo := lo ^ TableHi(index);
      hi := TableLo(index);
      next := next + 1;
    }
    crc := (hi as bv16 << 8) | lo as bv16;
  }

  lemma {:induction false} FoldLast(c: Crc, data: seq<bv8>, b: bv8)
    ensures Fold(c, data + [b]) == Step(Fold(c, data), b)
    decreases |data|
  {
    hide Step;
    if data == [] {
      assert (data + [b])[1..] == [];
    } else {
      assert (data + [b])[1..] == data[1..] + [b];
      FoldLast(Step(c, data[0]), data[1..], b);
    }
  }

  function HighByte(w: bv16): bv8 {
    (w >> 8) as bv8
  }

  function LowByte(w: bv16): bv8 {
    (w & 0xFF) as bv8
  }

  lemma BytesOfWord(c: Crc)
    ensures HighByte(Word(c)) == c.hi && LowByte(Word(c)) == c.lo
  {
  }

  lemma ChecksumOfNothing()
    ensures Checksum([]) == 0xFFFF
  {
  }

  /** One more byte and the high byte of the checksum so far select a pair of entries: one becomes the
      high byte, the other is added to the low byte. */
  lemma ChecksumByByte(data: seq<bv8>, b: bv8)
    ensures var was, now := Checksum(data), Checksum(data + [b]);
            var i := Xor(HighByte(was), b);
            HighByte(now) == TableLo(i) && LowByte(now) == Xor(LowByte(was), TableHi(i))
  {
    hide TableLo, TableHi, Fold, Word, HighByte, LowByte, Xor;
    FoldLast(START, data, b);
    BytesOfWord(Fold(START, data));
    BytesOfWord(Step(Fold(START, data), b));
  }

  /** The tables, from which by linearity all entries follow. */
  lemma TableBasis()
    ensures TableHi(1) == 0xC1 && TableHi(2) == 0x81 && TableHi(4) == 0x01 && TableHi(8) == 0x01
    ensures TableHi(16) == 0x01 && TableHi(32) == 0x01 && TableHi(64) == 0x01 && TableHi(128) == 0x01
    ensures TableLo(1) == 0xC0 && TableLo(2) == 0xC1 && TableLo(4) == 0xC3 && TableLo(8) == 0xC6
    ensures TableLo(16) == 0xCC && TableLo(32) == 0xD8 && TableLo(64) == 0xF0 && TableLo(128) == 0xA0
  {
  }

  lemma XorAssociates(a: bv8, b: bv8, c: bv8)
    ensures Xor(Xor(a, b), c) == Xor(a, Xor(b, c))
  {
  }

  lemma XorCommutes(a: bv8, b: bv8)
    ensures Xor(a, b) == Xor(b, a)
  {
  }

  lemma XorSwap(a: bv8, b: bv8, c: bv8, d: bv8)
    ensures Xor(Xor(a, b), Xor(c, d)) == Xor(Xor(a, c), Xor(b, d))
  {
    hide Xor;
    XorAssociates(a, b, Xor(c, d));
    XorAssociates(b, c, d);
    XorCommutes(b, c);
    XorAssociates(c, b, d);
    XorAssociates(a, c, Xor(b, d));
  }

  lemma XorZero(a: bv8, b: bv8)
    ensures Xor(a, b) == 0 <==> a == b
    ensures Xor(a, 0) == a && Xor(0, a) == a
  {
  }

  // ----- The tables in closed form

  function Halve(x: bv8): bv8 {
    x ^ (x >> 4)
  }

  function Quarter(x: bv8): bv8 {
    x ^ (x >> 2)
  }

  function LastBit(x: bv8): bv8 {
    (x ^ (x >> 1)) & 1
  }

  function Parity(x: bv8): bv8 {
    LastBit(Quarter(Halve(x)))
  }

  function LoMix(x: bv8, parity: bv8): bv8 {
    (x >> 2) ^ (x >> 1) ^ (parity << 6) ^ (parity << 7)
  }

  function TopBits(x: bv8): bv8 {
    (x << 7) ^ (x << 6)
  }

  function HiMix(x: bv8, parity: bv8): bv8 {
    Xor(TopBits(x), parity)
  }

  lemma TableLoForm(x: bv8)
    ensures TableLo(x) == LoMix(x, Parity(x))
  {
  }

  lemma TableHiForm(x: bv8)
    ensures TableHi(x) == HiMix(x, Parity(x))
  {
  }

  lemma TableLoInjective(x: bv8, y: bv8)
    requires TableLo(x) == TableLo(y)
    ensures x == y
  {
    hide TableLo;
    TableLoForm(x);
    TableLoForm(y);
  }

  lemma StagesAreLinear(x: bv8, y: bv8)
    ensures Halve(Xor(x, y)) == Xor(Halve(x), Halve(y))
    ensures Quarter(Xor(x, y)) == Xor(Quarter(x), Quarter(y))
    ensures LastBit(Xor(x, y)) == Xor(LastBit(x), LastBit(y))
  {
  }

  lemma ParityIsLinear(x: bv8, y: bv8)
    ensures Parity(Xor(x, y)) == Xor(Parity(x), Parity(y))
  {
    hide Xor, Halve, Quarter, LastBit;
    StagesAreLinear(x, y);
    StagesAreLinear(Halve(x), Halve(y));
    StagesAreLinear(Quarter(Halve(x)), Quarter(Halve(y)));
  }

  lemma LoMixIsLinear(x: bv8, y: bv8, p: bv8, q: bv8)
    ensures LoMix(Xor(x, y), Xor(p, q)) == Xor(LoMix(x, p), LoMix(y, q))
  {
  }

  lemma TopBitsAreLinear(x: bv8, y: bv8)
    ensures TopBits(Xor(x, y)) == Xor(TopBits(x), TopBits(y))
  {
  }

  lemma HiMixIsLinear(x: bv8, y: bv8, p: bv8, q: bv8)
    ensures HiMix(Xor(x, y), Xor(p, q)) == Xor(HiMix(x, p), HiMix(y, q))
  {
    hide Xor, TopBits;
    TopBitsAreLinear(x, y);
    XorSwap(TopBits(x), TopBits(y), p, q);
  }

  /** Both tables turn a xor of indexes into a xor of entries. */
  lemma TablesAreLinear(x: bv8, y: bv8)
    ensures TableLo(Xor(x, y)) == Xor(TableLo(x), TableLo(y))
    ensures TableHi(Xor(x, y)) == Xor(TableHi(x), TableHi(y))
  {
    hide Xor, TableLo, TableHi, LoMix, HiMix, Parity;
    TableLoForm(x); TableLoForm(y); TableLoForm(Xor(x, y));
    TableHiForm(x); TableHiForm(y); TableHiForm(Xor(x, y));
    ParityIsLinear(x, y);
    LoMixIsLinear(x, y, Parity(x), Parity(y));
    HiMixIsLinear(x, y, Parity(x), Parity(y));
  }

  lemma TablesAtZero()
    ensures TableLo(0) == 0 && TableHi(0) == 0
  {
  }

  // ----- Errors and what they do to the checksum

  function XorCrc(c: Crc, d: Crc): Crc {
    Crc(Xor(c.hi, d.hi), Xor(c.lo, d.lo))
  }

  /** The positions and bits in which two messages of one length differ. */
  function Difference(a: seq<bv8>, b: seq<bv8>): seq<bv8>
    requires |a| == |b|
  {
    seq(|a|, i requires 0 <= i < |a| => Xor(a[i], b[i]))
  }

  lemma StepIsLinear(c: Crc, d: Crc, x: bv8, y: bv8)
    ensures Step(XorCrc(c, d), Xor(x, y)) == XorCrc(Step(c, x), Step(d, y))
  {
    hide Xor, TableLo, TableHi;
    XorSwap(c.hi, d.hi, x, y);
    TablesAreLinear(Xor(c.hi, x), Xor(d.hi, y));
    XorSwap(c.lo, d.lo, TableHi(Xor(c.hi, x)), TableHi(Xor(d.hi, y)));
  }

  lemma {:induction false} FoldIsLinear(c: Crc, d: Crc, a: seq<bv8>, b: seq<bv8>)
    requires |a| == |b|
    ensures Fold(XorCrc(c, d), Difference(a, b)) == XorCrc(Fold(c, a), Fold(d, b))
    decreases |a|
  {
    hide Xor, TableLo, TableHi, Step;
    if a == [] {
    } else {
      StepIsLinear(c, d, a[0], b[0]);
      FoldIsLinear(Step(c, a[0]), Step(d, b[0]), a[1..], b[1..]);
      assert Difference(a, b)[1..] == Difference(a[1..], b[1..]);
    }
  }

  lemma WordInjective(c: Crc, d: Crc)
    ensures Word(c) == Word(d) <==> c == d
  {
  }

  /** Two messages get the same checksum exactly when their difference leaves the all-zero state
      unchanged: nothing else about the messages matters. */
  lemma CollisionDependsOnDifference(a: seq<bv8>, b: seq<bv8>)
    requires |a| == |b|
    ensures Checksum(a) == Checksum(b) <==> Fold(ZERO, Difference(a, b)) == ZERO
  {
    hide Xor, Fold, Word;
    FoldIsLinear(START, START, a, b);
    var x, y := Fold(START, a), Fold(START, b);
    WordInjective(x, y);
    XorZero(x.hi, y.hi);
    XorZero(x.lo, y.lo);
    XorZero(0xFF, 0xFF);
  }

  ghost predicate AllZero(d: seq<bv8>) {
    forall i | 0 <= i < |d| :: d[i] == 0
  }

  /** One step, from any state, on a byte in which the messages may differ. */
  lemma StepToZero(c: Crc, b: bv8)
    ensures Step(c, b) == ZERO <==> b == c.hi && c.lo == 0
  {
    hide Xor, TableLo, TableHi;
    TablesAtZero();
    XorZero(c.hi, b);
    XorZero(c.lo, 0);
    if TableLo(Xor(c.hi, b)) == 0 {
      TableLoInjective(Xor(c.hi, b), 0);
    }
  }

  /** Once an error has changed the state, agreeing bytes never hide it again. */
  lemma {:induction false} AgreementHidesNothing(c: Crc, d: seq<bv8>)
    requires AllZero(d)
    ensures Fold(c, d) == ZERO <==> c == ZERO
    decreases |d|
  {
    hide Step;
    if d == [] {
    } else {
      StepToZero(c, 0);
      AgreementHidesNothing(Step(c, d[0]), d[1..]);
    }
  }

  lemma {:induction false} FoldConcat(c: Crc, a: seq<bv8>, b: seq<bv8>)
    ensures Fold(c, a + b) == Fold(Fold(c, a), b)
    decreases |a|
  {
    hide Step;
    if a == [] {
      assert a + b == b;
    } else {
      assert (a + b)[1..] == a[1..] + b;
      FoldConcat(Step(c, a[0]), a[1..], b);
    }
  }

  /** An error confined to one stretch of the message is missed exactly when the stretch alone
      leads from zero back to zero. */
  lemma BurstVerdict(d: seq<bv8>, i: nat, j: nat)
    requires i <= j <= |d| && AllZero(d[..i]) && AllZero(d[j..])
    ensures Fold(ZERO, d) == ZERO <==> Fold(ZERO, d[i..j]) == ZERO
  {
    hide Fold;
    assert d == d[..i] + (d[i..j] + d[j..]);
    FoldConcat(ZERO, d[..i], d[i..j] + d[j..]);
    AgreementHidesNothing(ZERO, d[..i]);
    FoldConcat(ZERO, d[i..j], d[j..]);
    AgreementHidesNothing(Fold(ZERO, d[i..j]), d[j..]);
  }

  /** Messages that agree outside the stretch from `i` to `j`. */
  ghost predicate AgreeOutside(a: seq<bv8>, b: seq<bv8>, i: nat, j: nat) {
    && |a| == |b| && i <= j <= |a|
    && forall k | 0 <= k < |a| && !(i <= k < j) :: a[k] == b[k]
  }

  lemma StretchVerdict(a: seq<bv8>, b: seq<bv8>, i: nat, j: nat)
    requires AgreeOutside(a, b, i, j)
    ensures Checksum(a) == Checksum(b) <==> Fold(ZERO, Difference(a[i..j], b[i..j])) == ZERO
  {
    hide Xor, Fold, Checksum;
    var d := Difference(a, b);
    forall k | 0 <= k < |a| && a[k] == b[k] ensures d[k] == 0 {
      XorZero(a[k], b[k]);
    }
    CollisionDependsOnDifference(a, b);
    BurstVerdict(d, i, j);
    assert d[i..j] == Difference(a[i..j], b[i..j]);
  }

  /** Every error in a single byte is caught. */
  lemma OneByteErrorsAreCaught(a: seq<bv8>, b: seq<bv8>, i: nat)
    requires i < |a| && AgreeOutside(a, b, i, i + 1)
    ensures Checksum(a) == Checksum(b) <==> a[i] == b[i]
  {
    hide Xor, Step, Checksum;
    StretchVerdict(a, b, i, i + 1);
    var x := Xor(a[i], b[i]);
    assert Difference(a[i..i + 1], b[i..i + 1]) == [x];
    assert Fold(ZERO, [x]) == Fold(Step(ZERO, x), []);
    StepToZero(ZERO, x);
    XorZero(a[i], b[i]);
  }

  /** Errors in two neighbouring bytes are not always caught, unlike with the update order of
      the usual CRC-16: this is exactly when one slips through. */
  lemma TwoByteErrorsMissed(a: seq<bv8>, b: seq<bv8>, i: nat)
    requires i + 1 < |a| && AgreeOutside(a, b, i, i + 2)
    ensures Checksum(a) == Checksum(b) <==>
            a[i + 1] ^ b[i + 1] == TableLo(a[i] ^ b[i]) && TableHi(a[i] ^ b[i]) == 0
  {
    var x, y := Xor(a[i], b[i]), Xor(a[i + 1], b[i + 1]);
    hide Xor, Step, Checksum, TableLo, TableHi;
    StretchVerdict(a, b, i, i + 2);
    assert Difference(a[i..i + 2], b[i..i + 2]) == [x, y];
    assert [x, y][1..] == [y];
    assert Fold(ZERO, [x, y]) == Fold(Step(ZERO, x), [y]) == Fold(Step(Step(ZERO, x), y), []);
    StepToZero(Step(ZERO, x), y);
    StepFromZero(x);
  }

  lemma StepFromZero(x: bv8)
    ensures Step(ZERO, x) == Crc(TableLo(x), TableHi(x))
  {
    hide Xor, TableLo, TableHi;
    XorZero(x, 0);
    XorZero(TableHi(x), 0);
  }

  /** Such an error exists: it changes two neighbouring bytes and keeps the checksum. */
  lemma MissedErrorExists()
    ensures Checksum([0x0C, 0x05]) == Checksum([0x00, 0x00])
  {
    hide Checksum;
    TwoByteErrorsMissed([0x0C, 0x05], [0x00, 0x00], 0);
  }
}
