/** The table-driven CRC-32 of the model checksums, and what bit-at-a-time division says it is. */
module Checksums {
  const POLYNOMIAL: bv32 := 0xEDB88320

  function Xor(a: bv32, b: bv32): bv32 {
    a ^ b
  }

  function Half(c: bv32): bv32 {
    c >> 1
  }

  function LowByte(c: bv32): (b: bv32)
    ensures b < 256
  {
    c & 0xFF
  }

  function HighBytes(c: bv32): bv32 {
    c & 0xFFFF_FF00
  }

  function DropByte(c: bv32): bv32 {
    c >> 8
  }

  function Mask(c: bv32): bv32 {
    if c & 1 == 1 then POLYNOMIAL else 0
  }

  /** One bit of division by the reflected polynomial. */
  function BitStep(c: bv32): bv32 {
    Xor(Half(c), Mask(c))
  }

  /** A byte's worth of division. */
  function ByteStep(c: bv32): bv32 {
    BitStep(BitStep(BitStep(BitStep(BitStep(BitStep(BitStep(BitStep(c))))))))
  }

  /** crc32_tab, sixteen entries a row. */
  function Table(i: bv32): bv32
    requires i < 256
  {
    var k := i & 0xF;
    match i >> 4
    case 0 => Row0(k)
    case 1 => Row1(k)
    case 2 => Row2(k)
    case 3 => Row3(k)
    case 4 => Row4(k)
    case 5 => Row5(k)
    case 6 => Row6(k)
    case 7 => Row7(k)
    case 8 => Row8(k)
    case 9 => Row9(k)
    case 10 => Row10(k)
    case 11 => Row11(k)
    case 12 => Row12(k)
    case 13 => Row13(k)
    case 14 => Row14(k)
    case _ => Row15(k)
  }

  function Row0(k: bv32): bv32 {
    match k
    case 0 => 0x00000000 case 1 => 0x77073096 case 2 => 0xee0e612c case 3 => 0x990951ba
    case 4 => 0x076dc419 case 5 => 0x706af48f case 6 => 0xe963a535 case 7 => 0x9e6495a3
    case 8 => 0x0edb8832 case 9 => 0x79dcb8a4 case 10 => 0xe0d5e91e case 11 => 0x97d2d988
    case 12 => 0x09b64c2b case 13 => 0x7eb17cbd case 14 => 0xe7b82d07 case _ => 0x90bf1d91
  }

  function Row1(k: bv32): bv32 {
    match k
    case 0 => 0x1db71064 case 1 => 0x6ab020f2 case 2 => 0xf3b97148 case 3 => 0x84be41de
    case 4 => 0x1adad47d case 5 => 0x6ddde4eb case 6 => 0xf4d4b551 case 7 => 0x83d385c7
    case 8 => 0x136c9856 case 9 => 0x646ba8c0 case 10 => 0xfd62f97a case 11 => 0x8a65c9ec
    case 12 => 0x14015c4f case 13 => 0x63066cd9 case 14 => 0xfa0f3d63 case _ => 0x8d080df5
  }

  function Row2(k: bv32): bv32 {
    match k
    case 0 => 0x3b6e20c8 case 1 => 0x4c69105e case 2 => 0xd56041e4 case 3 => 0xa2677172
    case 4 => 0x3c03e4d1 case 5 => 0x4b04d447 case 6 => 0xd20d85fd case 7 => 0xa50ab56b
    case 8 => 0x35b5a8fa case 9 => 0x42b2986c case 10 => 0xdbbbc9d6 case 11 => 0xacbcf940
    case 12 => 0x32d86ce3 case 13 => 0x45df5c75 case 14 => 0xdcd60dcf case _ => 0xabd13d59
  }

  function Row3(k: bv32): bv32 {
    match k
    case 0 => 0x26d930ac case 1 => 0x51de003a case 2 => 0xc8d75180 case 3 => 0xbfd06116
    case 4 => 0x21b4f4b5 case 5 => 0x56b3c423 case 6 => 0xcfba9599 case 7 => 0xb8bda50f
    case 8 => 0x2802b89e case 9 => 0x5f058808 case 10 => 0xc60cd9b2 case 11 => 0xb10be924
    case 12 => 0x2f6f7c87 case 13 => 0x58684c11 case 14 => 0xc1611dab case _ => 0xb6662d3d
  }

  function Row4(k: bv32): bv32 {
    match k
    case 0 => 0x76dc4190 case 1 => 0x01db7106 case 2 => 0x98d220bc case 3 => 0xefd5102a
    case 4 => 0x71b18589 case 5 => 0x06b6b51f case 6 => 0x9fbfe4a5 case 7 => 0xe8b8d433
    case 8 => 0x7807c9a2 case 9 => 0x0f00f934 case 10 => 0x9609a88e case 11 => 0xe10e9818
    case 12 => 0x7f6a0dbb case 13 => 0x086d3d2d case 14 => 0x91646c97 case _ => 0xe6635c01
  }

  function Row5(k: bv32): bv32 {
    match k
    case 0 => 0x6b6b51f4 case 1 => 0x1c6c6162 case 2 => 0x856530d8 case 3 => 0xf262004e
    case 4 => 0x6c0695ed case 5 => 0x1b01a57b case 6 => 0x8208f4c1 case 7 => 0xf50fc457
    case 8 => 0x65b0d9c6 case 9 => 0x12b7e950 case 10 => 0x8bbeb8ea case 11 => 0xfcb9887c
    case 12 => 0x62dd1ddf case 13 => 0x15da2d49 case 14 => 0x8cd37cf3 case _ => 0xfbd44c65
  }

  function Row6(k: bv32): bv32 {
    match k
    case 0 => 0x4db26158 case 1 => 0x3ab551ce case 2 => 0xa3bc0074 case 3 => 0xd4bb30e2
    case 4 => 0x4adfa541 case 5 => 0x3dd895d7 case 6 => 0xa4d1c46d case 7 => 0xd3d6f4fb
    case 8 => 0x4369e96a case 9 => 0x346ed9fc case 10 => 0xad678846 case 11 => 0xda60b8d0
    case 12 => 0x44042d73 case 13 => 0x33031de5 case 14 => 0xaa0a4c5f case _ => 0xdd0d7cc9
  }

  function Row7(k: bv32): bv32 {
    match k
    case 0 => 0x5005713c case 1 => 0x270241aa case 2 => 0xbe0b1010 case 3 => 0xc90c2086
    case 4 => 0x5768b525 case 5 => 0x206f85b3 case 6 => 0xb966d409 case 7 => 0xce61e49f
    case 8 => 0x5edef90e case 9 => 0x29d9c998 case 10 => 0xb0d09822 case 11 => 0xc7d7a8b4
    case 12 => 0x59b33d17 case 13 => 0x2eb40d81 case 14 => 0xb7bd5c3b case _ => 0xc0ba6cad
  }

  function Row8(k: bv32): bv32 {
    match k
    case 0 => 0xedb88320 case 1 => 0x9abfb3b6 case 2 => 0x03b6e20c case 3 => 0x74b1d29a
    case 4 => 0xead54739 case 5 => 0x9dd277af case 6 => 0x04db2615 case 7 => 0x73dc1683
    case 8 => 0xe3630b12 case 9 => 0x94643b84 case 10 => 0x0d6d6a3e case 11 => 0x7a6a5aa8
    case 12 => 0xe40ecf0b case 13 => 0x9309ff9d case 14 => 0x0a00ae27 case _ => 0x7d079eb1
  }

  function Row9(k: bv32): bv32 {
    match k
    case 0 => 0xf00f9344 case 1 => 0x8708a3d2 case 2 => 0x1e01f268 case 3 => 0x6906c2fe
    case 4 => 0xf762575d case 5 => 0x806567cb case 6 => 0x196c3671 case 7 => 0x6e6b06e7
    case 8 => 0xfed41b76 case 9 => 0x89d32be0 case 10 => 0x10da7a5a case 11 => 0x67dd4acc
    case 12 => 0xf9b9df6f case 13 => 0x8ebeeff9 case 14 => 0x17b7be43 case _ => 0x60b08ed5
  }

  function Row10(k: bv32): bv32 {
    match k
    case 0 => 0xd6d6a3e8 case 1 => 0xa1d1937e case 2 => 0x38d8c2c4 case 3 => 0x4fdff252
    case 4 => 0xd1bb67f1 case 5 => 0xa6bc5767 case 6 => 0x3fb506dd case 7 => 0x48b2364b
    case 8 => 0xd80d2bda case 9 => 0xaf0a1b4c case 10 => 0x36034af6 case 11 => 0x41047a60
    case 12 => 0xdf60efc3 case 13 => 0xa867df55 case 14 => 0x316e8eef case _ => 0x4669be79
  }

  function Row11(k: bv32): bv32 {
    match k
    case 0 => 0xcb61b38c case 1 => 0xbc66831a case 2 => 0x256fd2a0 case 3 => 0x5268e236
    case 4 => 0xcc0c7795 case 5 => 0xbb0b4703 case 6 => 0x220216b9 case 7 => 0x5505262f
    case 8 => 0xc5ba3bbe case 9 => 0xb2bd0b28 case 10 => 0x2bb45a92 case 11 => 0x5cb36a04
    case 12 => 0xc2d7ffa7 case 13 => 0xb5d0cf31 case 14 => 0x2cd99e8b case _ => 0x5bdeae1d
  }

  function Row12(k: bv32): bv32 {
    match k
    case 0 => 0x9b64c2b0 case 1 => 0xec63f226 case 2 => 0x756aa39c case 3 => 0x026d930a
    case 4 => 0x9c0906a9 case 5 => 0xeb0e363f case 6 => 0x72076785 case 7 => 0x05005713
    case 8 => 0x95bf4a82 case 9 => 0xe2b87a14 case 10 => 0x7bb12bae case 11 => 0x0cb61b38
    case 12 => 0x92d28e9b case 13 => 0xe5d5be0d case 14 => 0x7cdcefb7 case _ => 0x0bdbdf21
  }

  function Row13(k: bv32): bv32 {
    match k
    case 0 => 0x86d3d2d4 case 1 => 0xf1d4e242 case 2 => 0x68ddb3f8 case 3 => 0x1fda836e
    case 4 => 0x81be16cd case 5 => 0xf6b9265b case 6 => 0x6fb077e1 case 7 => 0x18b74777
    case 8 => 0x88085ae6 case 9 => 0xff0f6a70 case 10 => 0x66063bca case 11 => 0x11010b5c
    case 12 => 0x8f659eff case 13 => 0xf862ae69 case 14 => 0x616bffd3 case _ => 0x166ccf45
  }

  function Row14(k: bv32): bv32 {
    match k
    case 0 => 0xa00ae278 case 1 => 0xd70dd2ee case 2 => 0x4e048354 case 3 => 0x3903b3c2
    case 4 => 0xa7672661 case 5 => 0xd06016f7 case 6 => 0x4969474d case 7 => 0x3e6e77db
    case 8 => 0xaed16a4a case 9 => 0xd9d65adc case 10 => 0x40df0b66 case 11 => 0x37d83bf0
    case 12 => 0xa9bcae53 case 13 => 0xdebb9ec5 case 14 => 0x47b2cf7f case _ => 0x30b5ffe9
  }

  function Row15(k: bv32): bv32 {
    match k
    case 0 => 0xbdbdf21c case 1 => 0xcabac28a case 2 => 0x53b39330 case 3 => 0x24b4a3a6
    case 4 => 0xbad03605 case 5 => 0xcdd70693 case 6 => 0x54de5729 case 7 => 0x23d967bf
    case 8 => 0xb3667a2e case 9 => 0xc4614ab8 case 10 => 0x5d681b02 case 11 => 0x2a6f2b94
    case 12 => 0xb40bbe37 case 13 => 0xc30c8ea1 case 14 => 0x5a05df1b case _ => 0x2d02ef8d
  }

  lemma FirstBits()
    ensures ByteStep(0) == 0 && ByteStep(1) == Row0(1) && ByteStep(2) == Row0(2)
    ensures ByteStep(4) == Row0(4) && ByteStep(8) == Row0(8)
  {
  }

  lemma Row0IsDivision(k: bv32)
    requires k < 16
    ensures Row0(k) == ByteStep(k)
  {
    FirstBits();
    hide ByteStep;
    var low, high := k & 3, k & 12;
    ByteStepLinear(k & 1, k & 2);
    ByteStepLinear(k & 4, k & 8);
    ByteStepLinear(low, high);
    assert low == Xor(k & 1, k & 2) && high == Xor(k & 4, k & 8) && k == Xor(low, high);
  }

  lemma RowsAreShifted(base: bv32, k: bv32)
    requires base & 0xF == 0 && k < 16
    ensures ByteStep(base + k) == Xor(ByteStep(base), Row0(k))
  {
    Row0IsDivision(k);
    ByteStepLinear(base, k);
    hide ByteStep, Row0;
    assert base + k == Xor(base, k);
  }

  lemma Row1IsDivision(k: bv32)
    requires k < 16
    ensures Row1(k) == ByteStep(16 + k)
  {
    RowsAreShifted(16, k);
    assert ByteStep(16) == 0x1db71064;
    hide ByteStep;
  }

  lemma Row2IsDivision(k: bv32)
    requires k < 16
    ensures Row2(k) == ByteStep(32 + k)
  {
    RowsAreShifted(32, k);
    assert ByteStep(32) == 0x3b6e20c8;
    hide ByteStep;
  }

  lemma Row3IsDivision(k: bv32)
    requires k < 16
    ensures Row3(k) == ByteStep(48 + k)
  {
    RowsAreShifted(48, k);
    assert ByteStep(48) == 0x26d930ac;
    hide ByteStep;
  }

  lemma Row4IsDivision(k: bv32)
    requires k < 16
    ensures Row4(k) == ByteStep(64 + k)
  {
    RowsAreShifted(64, k);
    assert ByteStep(64) == 0x76dc4190;
    hide ByteStep;
  }

  lemma Row5IsDivision(k: bv32)
    requires k < 16
    ensures Row5(k) == ByteStep(80 + k)
  {
    RowsAreShifted(80, k);
    assert ByteStep(80) == 0x6b6b51f4;
    hide ByteStep;
  }

  lemma Row6IsDivision(k: bv32)
    requires k < 16
    ensures Row6(k) == ByteStep(96 + k)
  {
    RowsAreShifted(96, k);
    assert ByteStep(96) == 0x4db26158;
    hide ByteStep;
  }

  lemma Row7IsDivision(k: bv32)
    requires k < 16
    ensures Row7(k) == ByteStep(112 + k)
  {
    RowsAreShifted(112, k);
    assert ByteStep(112) == 0x5005713c;
    hide ByteStep;
  }

  lemma Row8IsDivision(k: bv32)
    requires k < 16
    ensures Row8(k) == ByteStep(128 + k)
  {
    RowsAreShifted(128, k);
    assert ByteStep(128) == 0xedb88320;
    hide ByteStep;
  }

  lemma Row9IsDivision(k: bv32)
    requires k < 16
    ensures Row9(k) == ByteStep(144 + k)
  {
    RowsAreShifted(144, k);
    assert ByteStep(144) == 0xf00f9344;
    hide ByteStep;
  }

  lemma Row10IsDivision(k: bv32)
    requires k < 16
    ensures Row10(k) == ByteStep(160 + k)
  {
    RowsAreShifted(160, k);
    assert ByteStep(160) == 0xd6d6a3e8;
    hide ByteStep;
  }

  lemma Row11IsDivision(k: bv32)
    requires k < 16
    ensures Row11(k) == ByteStep(176 + k)
  {
    RowsAreShifted(176, k);
    assert ByteStep(176) == 0xcb61b38c;
    hide ByteStep;
  }

  lemma Row12IsDivision(k: bv32)
    requires k < 16
    ensures Row12(k) == ByteStep(192 + k)
  {
    RowsAreShifted(192, k);
    assert ByteStep(192) == 0x9b64c2b0;
    hide ByteStep;
  }

  lemma Row13IsDivision(k: bv32)
    requires k < 16
    ensures Row13(k) == ByteStep(208 + k)
  {
    RowsAreShifted(208, k);
    assert ByteStep(208) == 0x86d3d2d4;
    hide ByteStep;
  }

  lemma Row14IsDivision(k: bv32)
    requires k < 16
    ensures Row14(k) == ByteStep(224 + k)
  {
    RowsAreShifted(224, k);
    assert ByteStep(224) == 0xa00ae278;
    hide ByteStep;
  }

  lemma Row15IsDivision(k: bv32)
    requires k < 16
    ensures Row15(k) == ByteStep(240 + k)
  {
    RowsAreShifted(240, k);
    assert ByteStep(240) == 0xbdbdf21c;
    hide ByteStep;
  }

  /** Every table entry is the remainder that eight bits of division leave. */
  lemma TableIsDivision(i: bv32)
    requires i < 256
    ensures Table(i) == ByteStep(i)
  {
    var k := i & 0xF;
    hide ByteStep;
    match i >> 4
    case 0 => hide Row0; Row0IsDivision(k);
    case 1 => hide Row1; Row1IsDivision(k);
    case 2 => hide Row2; Row2IsDivision(k);
    case 3 => hide Row3; Row3IsDivision(k);
    case 4 => hide Row4; Row4IsDivision(k);
    case 5 => hide Row5; Row5IsDivision(k);
    case 6 => hide Row6; Row6IsDivision(k);
    case 7 => hide Row7; Row7IsDivision(k);
    case 8 => hide Row8; Row8IsDivision(k);
    case 9 => hide Row9; Row9IsDivision(k);
    case 10 => hide Row10; Row10IsDivision(k);
    case 11 => hide Row11; Row11IsDivision(k);
    case 12 => hide Row12; Row12IsDivision(k);
    case 13 => hide Row13; Row13IsDivision(k);
    case 14 => hide Row14; Row14IsDivision(k);
    case 15 => hide Row15; Row15IsDivision(k);
    case _ => assert false;
  }

  lemma Associative(a: bv32, b: bv32, c: bv32)
    ensures Xor(Xor(a, b), c) == Xor(a, Xor(b, c))
  {
  }

  lemma Commutative(a: bv32, b: bv32)
    ensures Xor(a, b) == Xor(b, a)
  {
  }

  lemma Exchange(a: bv32, b: bv32, x: bv32, y: bv32)
    ensures Xor(Xor(a, b), Xor(x, y)) == Xor(Xor(a, x), Xor(b, y))
  {
    hide *;
    Associative(a, b, Xor(x, y));
    Associative(b, x, y);
    Commutative(b, x);
    Associative(x, b, y);
    Associative(a, x, Xor(b, y));
  }

  lemma HalfLinear(x: bv32, y: bv32)
    ensures Half(Xor(x, y)) == Xor(Half(x), Half(y))
  {
  }

  lemma LowBits(x: bv32, y: bv32)
    ensures (x ^ y) & 1 == (x & 1) ^ (y & 1)
    ensures x & 1 == 0 || x & 1 == 1
  {
  }

  lemma MaskLinear(x: bv32, y: bv32)
    ensures Mask(Xor(x, y)) == Xor(Mask(x), Mask(y))
  {
    LowBits(x, y);
    LowBits(y, x);
    if x & 1 == 1 {
      assert Mask(x) == POLYNOMIAL;
      assert Mask(x ^ y) == if y & 1 == 1 then 0 else POLYNOMIAL;
    } else {
      assert Mask(x) == 0;
      assert Mask(x ^ y) == Mask(y);
    }
  }

  lemma BitStepLinear(x: bv32, y: bv32)
    ensures BitStep(Xor(x, y)) == Xor(BitStep(x), BitStep(y))
  {
    MaskLinear(x, y);
    HalfLinear(x, y);
    Exchange(Half(x), Half(y), Mask(x), Mask(y));
    hide Mask, Xor, Half;
  }

  /** n bits of division. */
  function Steps(c: bv32, n: nat): bv32
    decreases n
  {
    if n == 0 then c else Steps(BitStep(c), n - 1)
  }

  lemma ByteIsEightBits(c: bv32)
    ensures Steps(c, 8) == ByteStep(c)
  {
    hide BitStep;
    var c4 := BitStep(BitStep(BitStep(BitStep(c))));
    assert Steps(c, 8) == Steps(BitStep(BitStep(c)), 6);
    assert Steps(BitStep(BitStep(c)), 6) == Steps(c4, 4);
    assert Steps(c4, 4) == Steps(BitStep(BitStep(c4)), 2);
  }

  lemma {:induction false} StepsLinear(x: bv32, y: bv32, n: nat)
    ensures Steps(Xor(x, y), n) == Xor(Steps(x, n), Steps(y, n))
    decreases n
  {
    hide BitStep, Xor;
    if n > 0 {
      BitStepLinear(x, y);
      StepsLinear(BitStep(x), BitStep(y), n - 1);
    }
  }

  lemma ByteStepLinear(x: bv32, y: bv32)
    ensures ByteStep(Xor(x, y)) == Xor(ByteStep(x), ByteStep(y))
  {
    StepsLinear(x, y, 8);
    ByteIsEightBits(x);
    ByteIsEightBits(y);
    ByteIsEightBits(Xor(x, y));
    hide *;
  }

  /** A message bit at a time, low bit first: section 8 of RFC 1952 without its table. */
  function DivideBits(c: bv32, b: bv32, n: nat): bv32
    decreases n
  {
    if n == 0 then c else DivideBits(BitStep(Xor(c, b & 1)), Half(b), n - 1)
  }

  function DivideByte(c: bv32, b: bv8): bv32 {
    DivideBits(c, b as bv32, 8)
  }

  /** The remainder after a message. */
  ghost function Divide(c: bv32, s: seq<bv8>): bv32
    decreases |s|
  {
    if s == [] then c else Divide(DivideByte(c, s[0]), s[1..])
  }

  predicate Fits(b: bv32, n: nat)
    decreases n
  {
    if n == 0 then b == 0 else Fits(Half(b), n - 1)
  }

  lemma BitAndRest(b: bv32)
    ensures b == Xor(b & 1, b & 0xFFFF_FFFE)
    ensures BitStep(b & 0xFFFF_FFFE) == Half(b)
  {
  }

  lemma XorZero(c: bv32)
    ensures Xor(c, 0) == c
  {
  }

  /** Feeding bits one at a time is dividing after one exclusive-or. */
  lemma {:induction false} BitsAtOnce(c: bv32, b: bv32, n: nat)
    requires Fits(b, n)
    ensures DivideBits(c, b, n) == Steps(Xor(c, b), n)
    decreases n
  {
    hide BitStep, Xor, Half;
    if n == 0 {
      XorZero(c);
    } else {
      BitAndRest(b);
      Associative(c, b & 1, b & 0xFFFF_FFFE);
      BitStepLinear(Xor(c, b & 1), b & 0xFFFF_FFFE);
      BitsAtOnce(BitStep(Xor(c, b & 1)), Half(b), n - 1);
    }
  }

  lemma EightBitsFit(b: bv8)
    ensures Fits(b as bv32, 8)
  {
    var x := b as bv32;
    var x4 := Half(Half(Half(Half(x))));
    assert x4 < 16;
    assert Half(Half(Half(Half(x4)))) == 0;
    hide Half;
    assert Fits(x4, 4) == Fits(Half(Half(Half(Half(x4)))), 0);
    assert Fits(x, 8) == Fits(Half(Half(x)), 6);
    assert Fits(Half(Half(x)), 6) == Fits(x4, 4);
  }

  lemma DivideByteIs(c: bv32, b: bv8)
    ensures DivideByte(c, b) == ByteStep(Xor(c, b as bv32))
  {
    EightBitsFit(b);
    BitsAtOnce(c, b as bv32, 8);
    ByteIsEightBits(Xor(c, b as bv32));
    hide DivideBits, Steps, Fits, BitStep, Xor;
  }

  lemma ZerosShift(y: bv32)
    requires LowByte(y) == 0
    ensures ByteStep(y) == DropByte(y)
  {
  }

  lemma Split(x: bv32)
    ensures x == Xor(LowByte(x), HighBytes(x))
    ensures LowByte(HighBytes(x)) == 0 && DropByte(HighBytes(x)) == DropByte(x)
  {
  }

  lemma ByteIsLow(b: bv8)
    ensures HighBytes(b as bv32) == 0
  {
  }

  lemma HighUntouched(c: bv32, b: bv32)
    requires HighBytes(b) == 0
    ensures HighBytes(Xor(c, b)) == HighBytes(c)
  {
  }

  /** One turn of the table loop is one byte of division. */
  lemma TableStep(c: bv32, b: bv8)
    ensures Xor(Table(LowByte(Xor(c, b as bv32))), DropByte(c)) == DivideByte(c, b)
  {
    hide *;
    var low, high := LowByte(Xor(c, b as bv32)), HighBytes(c);
    Split(Xor(c, b as bv32));
    Split(c);
    ByteIsLow(b);
    HighUntouched(c, b as bv32);
    DivideByteIs(c, b);
    TableIsDivision(low);
    ByteStepLinear(low, high);
    ZerosShift(high);
  }

  const ALL_ONES: bv32 := 0xFFFF_FFFF

  /** The checksum of a message: the division starts and ends with all bits inverted. */
  ghost function Checksum(s: seq<bv8>): bv32 {
    Xor(Divide(ALL_ONES, s), ALL_ONES)
  }

  /** crc32 */
  method Crc32(s: seq<bv8>) returns (crc: bv32)
    ensures crc == Checksum(s)
  {
    crc := Xor(0, ALL_ONES);
    XorZero(ALL_ONES);
    Commutative(0, ALL_ONES);
    var p := 0;
    assert s[0..] == s;
    hide DivideByte, Table, Xor, LowByte, DropByte;
    while p < |s|
      invariant 0 <= p <= |s|
      invariant Divide(crc, s[p..]) == Divide(ALL_ONES, s)
    {
      assert s[p..][1..] == s[p + 1..];
      TableStep(crc, s[p]);
      crc := Xor(Table(LowByte(Xor(crc, s[p] as bv32))), DropByte(crc));
      p := p + 1;
    }
    crc := Xor(crc, ALL_ONES);
  }

  lemma BitStepInjective(x: bv32, y: bv32)
    requires BitStep(x) == BitStep(y)
    ensures x == y
  {
  }

  lemma {:induction false} StepsInjective(x: bv32, y: bv32, n: nat)
    requires Steps(x, n) == Steps(y, n)
    ensures x == y
    decreases n
  {
    hide BitStep;
    if n > 0 {
      StepsInjective(BitStep(x), BitStep(y), n - 1);
      BitStepInjective(x, y);
    }
  }

  lemma XorInjective(a: bv32, x: bv32, y: bv32)
    requires Xor(a, x) == Xor(a, y)
    ensures x == y
  {
  }

  lemma {:induction false} DivideInjective(x: bv32, y: bv32, s: seq<bv8>)
    requires Divide(x, s) == Divide(y, s)
    ensures x == y
    decreases |s|
  {
    hide DivideByte, ByteStep, Xor, Steps;
    if s != [] {
      var b := s[0] as bv32;
      DivideInjective(DivideByte(x, s[0]), DivideByte(y, s[0]), s[1..]);
      DivideByteIs(x, s[0]);
      DivideByteIs(y, s[0]);
      ByteIsEightBits(Xor(x, b));
      ByteIsEightBits(Xor(y, b));
      StepsInjective(Xor(x, b), Xor(y, b), 8);
      Commutative(x, b);
      Commutative(y, b);
      XorInjective(b, x, y);
    }
  }

  lemma {:induction false} DivideAppend(c: bv32, s: seq<bv8>, t: seq<bv8>)
    ensures Divide(c, s + t) == Divide(Divide(c, s), t)
    decreases |s|
  {
    hide DivideByte;
    if s == [] {
      assert s + t == t;
    } else {
      assert (s + t)[1..] == s[1..] + t;
      DivideAppend(DivideByte(c, s[0]), s[1..], t);
    }
  }

  function Shifted(w: bv32): bv32 {
    w << 8
  }

  /** Up to four bytes as one word, first byte lowest. */
  function Window(u: seq<bv8>): bv32 {
    if u == [] then 0 else Xor(u[0] as bv32, Shifted(Window(u[1..])))
  }

  function Size(n: nat): bv32 {
    if n == 0 then 1 else if n == 1 then 0x100 else if n == 2 then 0x1_0000 else 0x100_0000
  }

  /** Whether n bytes hold the word. */
  predicate Holds(w: bv32, n: nat) {
    w < Size(n)
  }

  lemma WindowGrows(b: bv8, w: bv32, n: nat)
    requires n < 3 && Holds(w, n)
    ensures Holds(Xor(b as bv32, Shifted(w)), n + 1)
  {
  }

  lemma EmptyWindow()
    ensures Holds(0, 0)
  {
  }

  lemma WindowIs(u: seq<bv8>)
    ensures Window(u) == if u == [] then 0 else Xor(u[0] as bv32, Shifted(Window(u[1..])))
  {
    hide Xor, Shifted;
  }

  lemma {:induction false} WindowFits(u: seq<bv8>)
    requires |u| <= 3
    ensures Holds(Window(u), |u|)
  {
    hide *;
    WindowIs(u);
    if u == [] {
      EmptyWindow();
    } else {
      WindowFits(u[1..]);
      WindowGrows(u[0], Window(u[1..]), |u| - 1);
    }
  }

  lemma FirstByte(a: bv8, b: bv8, v: bv32, w: bv32)
    requires v < 0x100_0000 && w < 0x100_0000
    requires Xor(a as bv32, Shifted(v)) == Xor(b as bv32, Shifted(w))
    ensures a == b && v == w
  {
  }

  lemma SizeBound(w: bv32, n: nat)
    requires Holds(w, n)
    ensures w < 0x100_0000
  {
  }

  lemma {:induction false} WindowInjective(u: seq<bv8>, v: seq<bv8>)
    requires |u| == |v| <= 4 && Window(u) == Window(v)
    ensures u == v
  {
    hide Xor, Shifted, Size, Holds;
    if u != [] {
      WindowFits(u[1..]);
      WindowFits(v[1..]);
      SizeBound(Window(u[1..]), |u| - 1);
      SizeBound(Window(v[1..]), |v| - 1);
      FirstByte(u[0], v[0], Window(u[1..]), Window(v[1..]));
      WindowInjective(u[1..], v[1..]);
      assert u == [u[0]] + u[1..] && v == [v[0]] + v[1..];
    }
  }

  function Bytes(c: bv32, n: nat): bv32
    decreases n
  {
    if n == 0 then c else Bytes(ByteStep(c), n - 1)
  }

  lemma ShiftedIsAhead(w: bv32)
    requires w < 0x100_0000
    ensures ByteStep(Shifted(w)) == w
  {
    hide *;
    ShiftedParts(w);
    ZerosShift(Shifted(w));
  }

  lemma ShiftedParts(w: bv32)
    requires w < 0x100_0000
    ensures LowByte(Shifted(w)) == 0 && DropByte(Shifted(w)) == w
  {
  }

  /** Up to four bytes are absorbed as one word. */
  lemma {:induction false} Absorb(c: bv32, u: seq<bv8>)
    requires |u| <= 4
    ensures Divide(c, u) == Bytes(Xor(c, Window(u)), |u|)
    decreases |u|
  {
    hide DivideByte, ByteStep, Xor, Shifted, Size, Holds;
    if u == [] {
      XorZero(c);
    } else {
      var b, w := u[0] as bv32, Window(u[1..]);
      WindowFits(u[1..]);
      SizeBound(w, |u| - 1);
      DivideByteIs(c, u[0]);
      Absorb(DivideByte(c, u[0]), u[1..]);
      ShiftedIsAhead(w);
      ByteStepLinear(Xor(c, b), Shifted(w));
      Associative(c, b, Shifted(w));
    }
  }

  lemma {:induction false} BytesInjective(x: bv32, y: bv32, n: nat)
    requires Bytes(x, n) == Bytes(y, n)
    ensures x == y
    decreases n
  {
    hide ByteStep, Steps;
    if n > 0 {
      BytesInjective(ByteStep(x), ByteStep(y), n - 1);
      ByteIsEightBits(x);
      ByteIsEightBits(y);
      StepsInjective(x, y, 8);
    }
  }

  /** Two messages that differ only inside a window of at most four bytes have different checksums,
      whatever surrounds the window. */
  lemma BurstsAreDetected(pre: seq<bv8>, u: seq<bv8>, v: seq<bv8>, post: seq<bv8>)
    requires |u| == |v| <= 4 && u != v
    ensures Checksum(pre + u + post) != Checksum(pre + v + post)
  {
    hide Divide, Xor;
    var c := Divide(ALL_ONES, pre);
    DivideAppend(ALL_ONES, pre + u, post);
    DivideAppend(ALL_ONES, pre + v, post);
    DivideAppend(ALL_ONES, pre, u);
    DivideAppend(ALL_ONES, pre, v);
    Absorb(c, u);
    Absorb(c, v);
    var a, b := Divide(ALL_ONES, pre + u + post), Divide(ALL_ONES, pre + v + post);
    if Xor(a, ALL_ONES) == Xor(b, ALL_ONES) {
      Commutative(a, ALL_ONES);
      Commutative(b, ALL_ONES);
      XorInjective(ALL_ONES, a, b);
      DivideInjective(Divide(c, u), Divide(c, v), post);
      BytesInjective(Xor(c, Window(u)), Xor(c, Window(v)), |u|);
      XorInjective(c, Window(u), Window(v));
      WindowInjective(u, v);
      assert false;
    }
  }

  /** Four bytes is the limit: these five bytes and five zeros cannot be told apart, wherever they stand. */
  lemma FiveBytesCollide(c: bv32)
    ensures Divide(c, [1, 0x96, 0x30, 0x07, 0x77]) == Divide(c, [0, 0, 0, 0, 0])
  {
    var u, z: seq<bv8> := [0x96, 0x30, 0x07, 0x77], [0, 0, 0, 0];
    var one: seq<bv8>, zero: seq<bv8> := [1], [0];
    FirstByteFolds(c);
    Windows(u, z);
    hide *;
    assert one + u == [1, 0x96, 0x30, 0x07, 0x77] && zero + z == [0, 0, 0, 0, 0];
    DivideAppend(c, one, u);
    DivideAppend(c, zero, z);
    SingleByte(c, 1);
    SingleByte(c, 0);
    Absorb(ByteStep(Xor(c, 1)), u);
    Absorb(ByteStep(Xor(c, 0)), z);
  }

  /** The first byte of the two messages is what the window of the other four makes up for. */
  lemma FirstByteFolds(c: bv32)
    ensures Xor(ByteStep(Xor(c, 1)), 0x7707_3096) == Xor(ByteStep(Xor(c, 0)), 0)
  {
    FirstBits();
    ByteStepLinear(c, 1);
    hide ByteStep;
    Associative(ByteStep(c), 0x7707_3096, 0x7707_3096);
    XorZero(c);
    XorZero(ByteStep(c));
    assert Xor(0x7707_3096, 0x7707_3096) == 0;
  }

  lemma SingleByte(c: bv32, b: bv8)
    ensures Divide(c, [b]) == ByteStep(Xor(c, b as bv32))
  {
    DivideByteIs(c, b);
    hide DivideByte, ByteStep, Xor;
    assert [b][1..] == [];
  }

  lemma Windows(u: seq<bv8>, z: seq<bv8>)
    requires u == [0x96, 0x30, 0x07, 0x77] && z == [0, 0, 0, 0]
    ensures Window(u) == 0x7707_3096 && Window(z) == 0
  {
    assert u[1..] == [0x30, 0x07, 0x77] && u[1..][1..] == [0x07, 0x77] && u[1..][1..][1..] == [0x77];
    assert Window([0x77]) == 0x77;
    assert Window([0x07, 0x77]) == 0x7707;
    assert Window([0x30, 0x07, 0x77]) == 0x77_0730;
    assert z[1..] == [0, 0, 0] && z[1..][1..] == [0, 0] && z[1..][1..][1..] == [0];
    assert Window([0]) == 0;
    assert Window([0, 0]) == 0;
    assert Window([0, 0, 0]) == 0;
  }

  /** A byte takes the remainder from c to next, whatever follows. */
  lemma Consumes(c: bv32, b: bv8, next: bv32)
    requires ByteStep(Xor(c, b as bv32)) == next
    ensures forall rest :: Divide(c, [b] + rest) == Divide(next, rest)
  {
    DivideByteIs(c, b);
    hide DivideByte, ByteStep, Xor;
    forall rest ensures Divide(c, [b] + rest) == Divide(next, rest) {
      assert ([b] + rest)[1..] == rest;
    }
  }

  lemma Nothing(c: bv32)
    ensures Divide(c, []) == c
  {
  }

  /** The check value of this checksum: that of the nine digits. */
  lemma CheckValue()
    ensures Checksum([0x31, 0x32, 0x33, 0x34, 0x35, 0x36, 0x37, 0x38, 0x39]) == 0xCBF4_3926
  {
    FirstHalf([0x36, 0x37, 0x38, 0x39]);
    SecondHalf();
    hide Divide;
    var s: seq<bv8> := [0x31, 0x32, 0x33, 0x34, 0x35, 0x36, 0x37, 0x38, 0x39];
    assert s == [0x31] + ([0x32] + ([0x33] + ([0x34] + ([0x35] + [0x36, 0x37, 0x38, 0x39]))));
  }

  lemma FirstHalf(rest: seq<bv8>)
    ensures Divide(ALL_ONES, [0x31] + ([0x32] + ([0x33] + ([0x34] + ([0x35] + rest))))) == Divide(0x340A_C5E3, rest)
  {
    Consumes(0xFFFF_FFFF, 0x31, 0x7C23_1048);
    Consumes(0x7C23_1048, 0x32, 0xB0AC_BB32);
    Consumes(0xB0AC_BB32, 0x33, 0x77B7_9C2D);
    Consumes(0x77B7_9C2D, 0x34, 0x641C_1F5C);
    Consumes(0x641C_1F5C, 0x35, 0x340A_C5E3);
  }

  lemma SecondHalf()
    ensures Divide(0x340A_C5E3, [0x36, 0x37, 0x38, 0x39]) == 0x340B_C6D9
  {
    Consumes(0x340A_C5E3, 0x36, 0xF68D_2C9E);
    Consumes(0xF68D_2C9E, 0x37, 0xAFFC_9660);
    Consumes(0xAFFC_9660, 0x38, 0x651F_2550);
    Consumes(0x651F_2550, 0x39, 0x340B_C6D9);
    Nothing(0x340B_C6D9);
    hide Divide;
    var s: seq<bv8> := [0x36, 0x37, 0x38, 0x39];
    var none: seq<bv8> := [];
    assert s == [0x36] + ([0x37] + ([0x38] + ([0x39] + none)));
  }

  /** A zero byte in front always changes the checksum. */
  lemma LeadingZeroIsSeen(s: seq<bv8>)
    ensures Checksum([0] + s) != Checksum(s)
  {
    var next := ByteStep(Xor(ALL_ONES, 0));
    assert next != ALL_ONES;
    Consumes(ALL_ONES, 0, next);
    hide Divide, ByteStep;
    if Divide(next, s) == Divide(ALL_ONES, s) {
      DivideInjective(next, ALL_ONES, s);
      assert false;
    }
  }
}
