/** Fixed-width unsigned integers and little-endian byte assembly, as used by
    both `gpu_metrics` decoders. */
module LittleEndian {

  type byte = x: int | 0 <= x < 256
  type u8 = x: nat | x < 0x100
  type u16 = x: nat | x < 0x1_0000
  type u32 = x: nat | x < 0x1_0000_0000
  type u64 = x: nat | x < 0x1_0000_0000_0000_0000

  function Pow256(n: nat): (r: nat)
    ensures r >= 1
  {
    if n == 0 then 1 else 256 * Pow256(n - 1)
  }

  /** The value of a byte string read least significant byte first. */
  function LeValue(s: seq<byte>): nat {
    if s == [] then 0 else s[0] + 256 * LeValue(s[1..])
  }

  lemma {:induction false} LeValueBound(s: seq<byte>)
    ensures LeValue(s) < Pow256(|s|)
  {
    if s != [] {
      LeValueBound(s[1..]);
    }
  }

  /** The `n` low bytes of `v`, least significant first. */
  function LeBytes(v: nat, n: nat): (r: seq<byte>)
    ensures |r| == n
  {
    if n == 0 then [] else [v % 256] + LeBytes(v / 256, n - 1)
  }

  /** Encoding then decoding gives back every value that fits. */
  lemma {:induction false} LeValueOfLeBytes(v: nat, n: nat)
    requires v < Pow256(n)
    ensures LeValue(LeBytes(v, n)) == v
  {
    if n > 0 {
      LeValueOfLeBytes(v / 256, n - 1);
      assert LeBytes(v, n)[1..] == LeBytes(v / 256, n - 1);
    }
  }

  /** Decoding then encoding at the same width gives back the bytes. */
  lemma {:induction false} LeBytesOfLeValue(s: seq<byte>)
    ensures LeBytes(LeValue(s), |s|) == s
  {
    if s != [] {
      var v := LeValue(s);
      assert v % 256 == s[0] && v / 256 == LeValue(s[1..]);
      LeBytesOfLeValue(s[1..]);
    }
  }

  /** `read_u16_le`: the two bytes at `offset`, low byte first. */
  function ReadU16Le(data: seq<byte>, offset: nat): (r: u16)
    requires offset + 2 <= |data|
    ensures r == (data[offset] as int) + 0x100 * (data[offset + 1] as int)
  {
    var s := data[offset..offset + 2];
    LeValueBound(s);
    assert Pow256(2) == 0x1_0000;
    assert s[1..][1..] == [];
    LeValue(s)
  }

  /** `read_u64_le`: the eight bytes at `offset`, low byte first. */
  function ReadU64Le(data: seq<byte>, offset: nat): (r: u64)
    requires offset + 8 <= |data|
    ensures r == (data[offset] as int) + 0x100 * (data[offset + 1] as int) + 0x1_0000 * (data[offset + 2] as int)
              + 0x100_0000 * (data[offset + 3] as int) + 0x1_0000_0000 * (data[offset + 4] as int)
              + 0x100_0000_0000 * (data[offset + 5] as int) + 0x1_0000_0000_0000 * (data[offset + 6] as int)
              + 0x100_0000_0000_0000 * (data[offset + 7] as int)
  {
    var s := data[offset..offset + 8];
    LeValueBound(s);
    assert Pow256(8) == 0x1_0000_0000_0000_0000;
    LeValueOfEight(s);
    LeValue(s)
  }

  /** Unfolding `LeValue` one byte at a time, from the top. */
  lemma LeValueCons(s: seq<byte>, k: nat)
    requires k < |s|
    ensures LeValue(s[k..]) == (s[k] as int) + 256 * LeValue(s[k + 1..])
  {
    assert s[k..][1..] == s[k + 1..];
  }

  lemma LeValueOfEight(s: seq<byte>)
    requires |s| == 8
    ensures LeValue(s) == (s[0] as int) + 0x100 * (s[1] as int) + 0x1_0000 * (s[2] as int)
              + 0x100_0000 * (s[3] as int) + 0x1_0000_0000 * (s[4] as int)
              + 0x100_0000_0000 * (s[5] as int) + 0x1_0000_0000_0000 * (s[6] as int)
              + 0x100_0000_0000_0000 * (s[7] as int)
  {
    assert s[0..] == s;
    assert s[8..] == [];
    LeValueCons(s, 0);
    LeValueCons(s, 1);
    LeValueCons(s, 2);
    LeValueCons(s, 3);
    LeValueCons(s, 4);
    LeValueCons(s, 5);
    LeValueCons(s, 6);
    LeValueCons(s, 7);
  }

  /** The two helpers read exactly their window of the input, nothing else. */
  lemma ReadersReadOnlyTheirWindow(d1: seq<byte>, d2: seq<byte>, offset: nat)
    requires offset + 8 <= |d1| && offset + 8 <= |d2|
    requires d1[offset..offset + 8] == d2[offset..offset + 8]
    ensures ReadU64Le(d1, offset) == ReadU64Le(d2, offset)
    ensures ReadU16Le(d1, offset) == ReadU16Le(d2, offset)
  {
    assert forall k :: offset <= k < offset + 8 ==> d1[k] == d1[offset..offset + 8][k - offset];
    assert forall k :: offset <= k < offset + 8 ==> d2[k] == d2[offset..offset + 8][k - offset];
  }

  /** Writing a value little-endian into a window and reading it back gives the value. */
  lemma ReadU16LeOfLeBytes(prefix: seq<byte>, v: u16, suffix: seq<byte>)
    ensures ReadU16Le(prefix + LeBytes(v, 2) + suffix, |prefix|) == v
  {
    var d := prefix + LeBytes(v, 2) + suffix;
    assert d[|prefix|..|prefix| + 2] == LeBytes(v, 2);
    assert Pow256(2) == 0x1_0000;
    LeValueOfLeBytes(v, 2);
  }

  lemma ReadU64LeOfLeBytes(prefix: seq<byte>, v: u64, suffix: seq<byte>)
    ensures ReadU64Le(prefix + LeBytes(v, 8) + suffix, |prefix|) == v
  {
    var d := prefix + LeBytes(v, 8) + suffix;
    assert d[|prefix|..|prefix| + 8] == LeBytes(v, 8);
    assert Pow256(8) == 0x1_0000_0000_0000_0000;
    LeValueOfLeBytes(v, 8);
  }
}
