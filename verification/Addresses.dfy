/** The six-byte address and its 64-bit Windows form (upper part NAP, lower part SAP). */
module Addresses {
  import opened Base

  type U16 = n: int | 0 <= n < 0x1_0000
  type U32 = n: int | 0 <= n < 0x1_0000_0000
  type U64 = n: int | 0 <= n <= U64_MAX

  function GetNap(x: U64): U16 {
    x / 0x1_0000_0000 % 0x1_0000
  }

  function GetSap(x: U64): U32 {
    x % 0x1_0000_0000
  }

  function SetNapSap(nap: U16, sap: U32): U64 {
    nap * 0x1_0000_0000 + sap
  }

  function ToLe32(n: U32): seq<Byte> {
    [n % 256, n / 256 % 256, n / 0x1_0000 % 256, n / 0x100_0000]
  }

  function ToLe16(n: U16): seq<Byte> {
    [n % 256, n / 256]
  }

  function FromLe32(b0: Byte, b1: Byte, b2: Byte, b3: Byte): U32 {
    b0 + 256 * b1 + 0x1_0000 * b2 + 0x100_0000 * b3
  }

  function FromLe16(b0: Byte, b1: Byte): U16 {
    b0 + 256 * b1
  }

  function NapSap(nap: U16, sap: U32): BtAddr {
    var n := ToLe16(nap);
    var s := ToLe32(sap);
    [s[0], s[1], s[2], s[3], n[0], n[1]]
  }

  /** `BtAddr` to the 64-bit form. */
  function Pack(a: BtAddr): U64 {
    SetNapSap(FromLe16(a[4], a[5]), FromLe32(a[0], a[1], a[2], a[3]))
  }

  /** The 64-bit form to `BtAddr`. */
  function Unpack(x: U64): BtAddr {
    NapSap(GetNap(x), GetSap(x))
  }

  /** The reference: byte i weighs 256^i. */
  function Weigh(bytes: seq<Byte>): nat {
    if bytes == [] then 0 else bytes[0] + 256 * Weigh(bytes[1..])
  }

  lemma PackWeighsBytes(a: BtAddr)
    ensures Pack(a) == Weigh(a) < 0x1_0000_0000_0000
  {
    assert Weigh(a) == a[0] + 256 * Weigh(a[1..]);
    assert Weigh(a[1..]) == a[1] + 256 * Weigh(a[2..]) by { assert a[1..][1..] == a[2..]; }
    assert Weigh(a[2..]) == a[2] + 256 * Weigh(a[3..]) by { assert a[2..][1..] == a[3..]; }
    assert Weigh(a[3..]) == a[3] + 256 * Weigh(a[4..]) by { assert a[3..][1..] == a[4..]; }
    assert Weigh(a[4..]) == a[4] + 256 * Weigh(a[5..]) by { assert a[4..][1..] == a[5..]; }
    assert Weigh(a[5..]) == a[5];
  }

  lemma UnpackPack(a: BtAddr)
    ensures Unpack(Pack(a)) == a
  {
    var nap := FromLe16(a[4], a[5]);
    var sap := FromLe32(a[0], a[1], a[2], a[3]);
    FieldsOfNapSap(nap, sap);
    Le32OfBytes(a[0], a[1], a[2], a[3]);
    assert ToLe16(nap) == [a[4], a[5]];
  }

  lemma FieldsOfNapSap(nap: U16, sap: U32)
    ensures GetNap(SetNapSap(nap, sap)) == nap
    ensures GetSap(SetNapSap(nap, sap)) == sap
  {
  }

  lemma Le32OfBytes(b0: Byte, b1: Byte, b2: Byte, b3: Byte)
    ensures ToLe32(FromLe32(b0, b1, b2, b3)) == [b0, b1, b2, b3]
  {
    var n: int := FromLe32(b0, b1, b2, b3);
    var top: int := b3;
    var mid: int := 256 * top + b2;
    var low: int := 256 * mid + b1;
    assert n == 256 * low + b0;
    assert n / 256 == low && n % 256 == b0;
    assert n / 0x1_0000 == mid && low % 256 == b1;
    assert n / 0x100_0000 == top && mid % 256 == b2;
  }

  /** Repacking keeps the low 48 bits and nothing else, so any u64 below 2^48 survives. */
  lemma PackUnpack(x: U64)
    ensures Pack(Unpack(x)) == x % 0x1_0000_0000_0000
  {
    Le32Inverts(GetSap(x));
    LowFieldsAreLow48(x);
  }

  lemma Le32Inverts(n: U32)
    ensures var b := ToLe32(n); FromLe32(b[0], b[1], b[2], b[3]) == n
  {
    var q: int := n / 256;
    var r: int := q / 256;
    assert n / 0x1_0000 == r;
    assert n / 0x100_0000 == r / 256;
  }

  lemma LowFieldsAreLow48(x: U64)
    ensures SetNapSap(GetNap(x), GetSap(x)) == x % 0x1_0000_0000_0000
  {
    var hi: int := x / 0x1_0000_0000;
    var lo: int := x % 0x1_0000_0000;
    assert x == hi * 0x1_0000_0000 + lo;
    assert hi == hi / 0x1_0000 * 0x1_0000 + hi % 0x1_0000;
    assert x == hi / 0x1_0000 * 0x1_0000_0000_0000 + (hi % 0x1_0000 * 0x1_0000_0000 + lo);
  }

  // ---------------------------------------------------------------- Display

  function HexDigit(n: nat): char
    requires n < 16
  {
    "0123456789abcdef"[n]
  }

  function HexByte(b: Byte): string {
    [HexDigit(b / 16), HexDigit(b % 16)]
  }

  function Display(a: BtAddr): string {
    HexByte(a[5]) + ":" + HexByte(a[4]) + ":" + HexByte(a[3]) + ":" +
    HexByte(a[2]) + ":" + HexByte(a[1]) + ":" + HexByte(a[0])
  }

  function DigitValue(c: char): nat {
    if '0' <= c <= '9' then c as int - '0' as int
    else if 'a' <= c <= 'f' then c as int - 'a' as int + 10
    else 0
  }

  /** Reads text as one big-endian hexadecimal number, skipping colons. */
  function ReadHex(s: string): nat {
    if s == "" then 0
    else
      var rest := ReadHex(s[..|s| - 1]);
      if s[|s| - 1] == ':' then rest else rest * 16 + DigitValue(s[|s| - 1])
  }

  lemma DigitValueInverts(n: nat)
    requires n < 16
    ensures DigitValue(HexDigit(n)) == n && HexDigit(n) != ':'
  {
  }

  lemma ReadHexByte(s: string, b: Byte)
    ensures ReadHex(s + HexByte(b)) == ReadHex(s) * 256 + b
  {
    var hi := HexDigit(b / 16);
    var lo := HexDigit(b % 16);
    DigitValueInverts(b / 16);
    DigitValueInverts(b % 16);
    ReadHexSnoc(s, hi);
    ReadHexSnoc(s + [hi], lo);
    assert s + HexByte(b) == s + [hi] + [lo];
  }

  lemma ReadHexColonByte(s: string, b: Byte)
    ensures ReadHex(s + ":" + HexByte(b)) == ReadHex(s) * 256 + b
  {
    ReadHexSnoc(s, ':');
    ReadHexByte(s + ":", b);
  }

  lemma ReadHexSnoc(s: string, c: char)
    ensures ReadHex(s + [c]) == if c == ':' then ReadHex(s) else ReadHex(s) * 16 + DigitValue(c)
  {
    assert (s + [c])[..|s|] == s;
  }

  /** The two lower-case hexadecimal digits of byte `i`, the last byte first. */
  predicate DisplaysDigits(text: string, a: BtAddr, i: int)
    requires |text| == 17 && 0 <= i < 6
  {
    && text[15 - 3 * i] == "0123456789abcdef"[a[i] / 16]
    && text[16 - 3 * i] == "0123456789abcdef"[a[i] % 16]
  }

  /** The three characters of a byte and its colon, after `text`. */
  lemma ColonByteAtEnd(text: string, b: Byte)
    ensures var longer := text + ":" + HexByte(b);
      && |longer| == |text| + 3
      && text <= longer
      && longer[|text|] == ':'
      && longer[|text| + 1] == "0123456789abcdef"[b / 16]
      && longer[|text| + 2] == "0123456789abcdef"[b % 16]
  {
  }

  /** The bytes from the last down to `i`, as they are printed. */
  function DisplayDown(a: BtAddr, i: nat): string
    requires i < 6
    decreases 6 - i
  {
    if i == 5 then HexByte(a[5]) else DisplayDown(a, i + 1) + ":" + HexByte(a[i])
  }

  lemma {:induction false} DisplayedDown(a: BtAddr, i: nat, text: string)
    requires i < 6 && |text| == 17 && DisplayDown(a, i) <= text
    ensures |DisplayDown(a, i)| == 17 - 3 * i
    ensures forall j | i <= j < 6 :: DisplaysDigits(text, a, j) && (j > i ==> text[17 - 3 * j] == ':')
    decreases 6 - i
  {
    if i < 5 {
      ColonByteAtEnd(DisplayDown(a, i + 1), a[i]);
      DisplayedDown(a, i + 1, text);
    }
  }

  lemma DisplayGoesDown(a: BtAddr)
    ensures DisplayDown(a, 0) == Display(a)
  {
    assert DisplayDown(a, 4) == HexByte(a[5]) + ":" + HexByte(a[4]);
    assert DisplayDown(a, 2) == DisplayDown(a, 4) + ":" + HexByte(a[3]) + ":" + HexByte(a[2]);
    assert DisplayDown(a, 0) == DisplayDown(a, 2) + ":" + HexByte(a[1]) + ":" + HexByte(a[0]);
  }

  lemma DisplayIsLaidOut(a: BtAddr)
    ensures var text := Display(a); |text| == 17 && text[2] == text[5] == text[8] == text[11] == text[14] == ':'
    ensures forall i | 0 <= i < 6 :: DisplaysDigits(Display(a), a, i)
  {
    DisplayGoesDown(a);
    DisplayedDown(a, 0, Display(a));
    var text := Display(a);
    assert forall j :: 0 < j < 6 ==> DisplaysDigits(text, a, j) && text[17 - 3 * j] == ':';
    assert DisplaysDigits(text, a, 5) && DisplaysDigits(text, a, 4) && DisplaysDigits(text, a, 3);
    assert DisplaysDigits(text, a, 2) && DisplaysDigits(text, a, 1);
  }

  /** The printed text is six pairs of digits with colons between them, and, read as a hexadecimal number, it is the
      packed address: NAP first, most significant byte first.  With `UnpackPack` the text determines the address. */
  lemma DisplayShowsPackedValue(a: BtAddr)
    ensures |Display(a)| == 17
    ensures var text := Display(a); text[2] == text[5] == text[8] == text[11] == text[14] == ':'
    ensures forall i | 0 <= i < 6 :: DisplaysDigits(Display(a), a, i)
    ensures ReadHex(Display(a)) == Pack(a)
  {
    var s5 := HexByte(a[5]);
    var s4 := s5 + ":" + HexByte(a[4]);
    var s3 := s4 + ":" + HexByte(a[3]);
    var s2 := s3 + ":" + HexByte(a[2]);
    var s1 := s2 + ":" + HexByte(a[1]);
    assert "" + s5 == s5;
    ReadHexByte("", a[5]);
    ReadHexColonByte(s5, a[4]);
    ReadHexColonByte(s4, a[3]);
    ReadHexColonByte(s3, a[2]);
    ReadHexColonByte(s2, a[1]);
    ReadHexColonByte(s1, a[0]);
    assert Display(a) == s1 + ":" + HexByte(a[0]);
    PackWeighsBytes(a);
    DisplayIsLaidOut(a);
  }
}
