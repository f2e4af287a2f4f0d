/** A group account byte by byte: what the program stores and what the watchdog reads back
    (`state/group_config.rs`, `ops/watchdog/core.ts`). */
module GroupBytes {
  import opened Machine
  import opened Ledger

  type byte = x: int | 0 <= x < 256

  type Bytes32 = s: seq<byte> | |s| == 32 witness Zeros(32)

  function Zeros(n: nat): (z: seq<byte>)
    ensures |z| == n
  {
    seq(n, i => 0)
  }

  // ---- little-endian integers ----

  function Pow256(n: nat): nat {
    if n == 0 then 1 else 256 * Pow256(n - 1)
  }

  /** The `n` low bytes of a number, lowest first. */
  function ToLE(v: nat, n: nat): (s: seq<byte>)
    ensures |s| == n
  {
    if n == 0 then [] else [v % 256] + ToLE(v / 256, n - 1)
  }

  function FromLE(s: seq<byte>): nat {
    if s == [] then 0 else s[0] + 256 * FromLE(s[1..])
  }

  lemma {:induction false} LERoundTrip(v: nat, n: nat)
    requires v < Pow256(n)
    ensures FromLE(ToLE(v, n)) == v
  {
    if n > 0 {
      assert v / 256 < Pow256(n - 1);
      LERoundTrip(v / 256, n - 1);
      assert ToLE(v, n)[1..] == ToLE(v / 256, n - 1);
    }
  }

  const TWO64: int := 0x1_0000_0000_0000_0000

  /** Two's complement in eight bytes. */
  function I64ToLE(v: i64): (s: seq<byte>)
    ensures |s| == 8
  {
    ToLE(if v >= 0 then v else v + TWO64, 8)
  }

  function I64FromLE(s: seq<byte>): int {
    var v := FromLE(s);
    if v > I64_MAX then v - TWO64 else v
  }

  lemma Pow256At8()
    ensures Pow256(8) == TWO64 == U64_MAX + 1 == 2 * (I64_MAX + 1) && I64_MIN == -I64_MAX - 1
    ensures Pow256(4) == 0x1_0000_0000 == U32_MAX + 1 && Pow256(1) == U8_MAX + 1
  {
    assert Pow256(2) == 65536;
    assert Pow256(4) == 65536 * 65536;
    assert Pow256(6) == 65536 * Pow256(4);
    assert Pow256(8) == 65536 * Pow256(6);
  }

  /** Every i64, negative ones included, survives the trip. */
  lemma I64RoundTrip(v: i64)
    ensures I64FromLE(I64ToLE(v)) == v
  {
    Pow256At8();
    LERoundTrip(if v >= 0 then v else v + TWO64, 8);
  }

  // ---- the account ----

  /** The stored fields of a GroupConfig. `code` is the UTF-8 of the group code. */
  datatype GroupImage = GroupImage(
    creator: Bytes32, rentPayer: Bytes32, mint: Bytes32,
    depositAmount: u64, cycleStart: i64, settledAt: i64,
    frequency: u8, totalPeriods: u8, maxMembers: u8, currentMembers: u8, status: u8,
    bump: u8, vaultBump: u8,
    code: seq<byte>)

  /** The bytes of "snGroup5". */
  const DISCRIMINATOR: seq<byte> := [115, 110, 71, 114, 111, 117, 112, 53]

  const STATUS_OFFSET: nat := 132

  /** The fixed-size fields, which end at offset 208. */
  function Header(c: GroupImage): seq<byte> {
    DISCRIMINATOR + c.creator + c.rentPayer + c.mint
    + ToLE(c.depositAmount, 8) + I64ToLE(c.cycleStart) + I64ToLE(c.settledAt)
    + [c.frequency, c.totalPeriods, c.maxMembers, c.currentMembers, c.status, c.bump, c.vaultBump]
    + Zeros(73)
  }

  function Serialize(c: GroupImage): seq<byte>
    requires |c.code| <= 32
  {
    Header(c) + ToLE(|c.code|, 4) + c.code
  }

  /** The account data: the serialized group in the space `create_group` allocated. */
  function AccountData(c: GroupImage): (data: seq<byte>)
    requires |c.code| <= 32
    ensures |data| == GROUP_SPACE && Serialize(c) <= data
  {
    Serialize(c) + Zeros(GROUP_SPACE - |Serialize(c)|)
  }

  /** The fields the watchdog reads. */
  datatype Group = Group(address: string, cycleStart: int, frequency: nat, totalPeriods: nat, status: nat,
      code: seq<byte>)

  datatype Decoded = Read(group: Group) | NotAGroup | OutOfRange

  function Min(a: nat, b: nat): nat {
    if a < b then a else b
  }

  /** `decodeGroup`. A slice past the end of the data stops at its end; a fixed read past it throws. */
  function DecodeGroup(address: string, data: seq<byte>): Decoded {
    if data[..Min(8, |data|)] != DISCRIMINATOR then NotAGroup
    else if |data| < 212 then OutOfRange
    else
      var codeLen := FromLE(data[208..212]);
      Read(Group(address, I64FromLE(data[112..120]), data[128], data[129], data[STATUS_OFFSET],
                 data[212..Min(212 + codeLen, |data|)]))
  }

  /** Where each field sits, which is what account filters by offset rely on. */
  lemma Offsets(c: GroupImage)
    ensures |Header(c)| == 208
    ensures Header(c)[..8] == DISCRIMINATOR == [115, 110, 71, 114, 111, 117, 112, 53]
    ensures Header(c)[8..40] == c.creator && Header(c)[40..72] == c.rentPayer && Header(c)[72..104] == c.mint
    ensures Header(c)[104..112] == ToLE(c.depositAmount, 8)
    ensures Header(c)[112..120] == I64ToLE(c.cycleStart) && Header(c)[120..128] == I64ToLE(c.settledAt)
    ensures Header(c)[128..135]
         == [c.frequency, c.totalPeriods, c.maxMembers, c.currentMembers, c.status, c.bump, c.vaultBump]
    ensures Header(c)[135..] == Zeros(73)
  {
    hide ToLE, I64ToLE, Zeros;
  }

  /** Reading back any stored group gives its fields, whatever the sign of its times and the length of
      its code. */
  lemma DecodeStored(address: string, c: GroupImage)
    requires |c.code| <= 32
    ensures |AccountData(c)| == 244
    ensures DecodeGroup(address, AccountData(c))
         == Read(Group(address, c.cycleStart, c.frequency, c.totalPeriods, c.status, c.code))
  {
    var data := AccountData(c);
    Offsets(c);
    I64RoundTrip(c.cycleStart);
    Pow256At8();
    LERoundTrip(|c.code|, 4);
    hide Header, ToLE, FromLE, I64ToLE, I64FromLE, Zeros, Pow256;
    assert data[..208] == Header(c);
    assert data[..8] == Header(c)[..8];
    assert data[112..120] == Header(c)[112..120];
    assert data[128] == Header(c)[128..135][0] && data[129] == Header(c)[128..135][1];
    assert data[132] == Header(c)[128..135][4];
    assert data[208..212] == ToLE(|c.code|, 4);
    assert data[212..212 + |c.code|] == c.code;
  }

  /** Only data that carries the discriminator decodes, and all of it that is long enough does. */
  lemma DecodeExactly(address: string, data: seq<byte>)
    ensures DecodeGroup(address, data).Read? <==> DISCRIMINATOR <= data && |data| >= 212
    ensures DecodeGroup(address, data).NotAGroup? <==> !(DISCRIMINATOR <= data)
  {
  }
}
