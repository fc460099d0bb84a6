/** Big-endian integers on the wire (firmware/qdevice/tlv.c, host/src/tlv.js). */
module Wire {
  import opened Defs

  type Bytes = seq<u8>

  function Put16(v: u16): (r: Bytes)
    ensures |r| == 2
  {
    [v / 0x100, v % 0x100]
  }

  function Put32(v: u32): (r: Bytes)
    ensures |r| == 4
  {
    Put16(v / 0x1_0000) + Put16(v % 0x1_0000)
  }

  function Put64(v: u64): (r: Bytes)
    ensures |r| == 8
  {
    Put32(v / 0x1_0000_0000) + Put32(v % 0x1_0000_0000)
  }

  function Get16(b: Bytes): u16
    requires |b| == 2
  {
    (b[0] as int) * 0x100 + b[1] as int
  }

  function Get32(b: Bytes): u32
    requires |b| == 4
  {
    Get16(b[..2]) * 0x1_0000 + Get16(b[2..])
  }

  function Get64(b: Bytes): u64
    requires |b| == 8
  {
    Get32(b[..4]) * 0x1_0000_0000 + Get32(b[4..])
  }

  lemma RoundTrip16(v: u16, b: Bytes)
    ensures Get16(Put16(v)) == v
    ensures |b| == 2 ==> Put16(Get16(b)) == b
  {
    if |b| == 2 {
      var x := Get16(b);
      assert x / 0x100 == b[0] && x % 0x100 == b[1];
    }
  }

  lemma Digits16(hi: int, lo: u16)
    ensures (hi * 0x1_0000 + lo) / 0x1_0000 == hi && (hi * 0x1_0000 + lo) % 0x1_0000 == lo
  {}

  lemma Digits32(hi: int, lo: u32)
    ensures (hi * 0x1_0000_0000 + lo) / 0x1_0000_0000 == hi
    ensures (hi * 0x1_0000_0000 + lo) % 0x1_0000_0000 == lo
  {}

  lemma Joined32(hi: u16, lo: u16)
    ensures Get32(Put16(hi) + Put16(lo)) == hi * 0x1_0000 + lo
  {
    var p := Put16(hi) + Put16(lo);
    assert p[..2] == Put16(hi) && p[2..] == Put16(lo);
    RoundTrip16(hi, []);
    RoundTrip16(lo, []);
  }

  lemma RoundTrip32(v: u32, b: Bytes)
    ensures Get32(Put32(v)) == v
    ensures |b| == 4 ==> Put32(Get32(b)) == b
  {
    Joined32(v / 0x1_0000, v % 0x1_0000);
    if |b| == 4 {
      var hi, lo := Get16(b[..2]), Get16(b[2..]);
      Digits16(hi, lo);
      RoundTrip16(0, b[..2]);
      RoundTrip16(0, b[2..]);
      assert b == b[..2] + b[2..];
    }
  }

  lemma Joined64(hi: u32, lo: u32)
    ensures Get64(Put32(hi) + Put32(lo)) == hi * 0x1_0000_0000 + lo
  {
    var p := Put32(hi) + Put32(lo);
    assert p[..4] == Put32(hi) && p[4..] == Put32(lo);
    RoundTrip32(hi, []);
    RoundTrip32(lo, []);
  }

  lemma RoundTrip64(v: u64, b: Bytes)
    ensures Get64(Put64(v)) == v
    ensures |b| == 8 ==> Put64(Get64(b)) == b
  {
    Joined64(v / 0x1_0000_0000, v % 0x1_0000_0000);
    if |b| == 8 {
      var hi, lo := Get32(b[..4]), Get32(b[4..]);
      Digits32(hi, lo);
      RoundTrip32(0, b[..4]);
      RoundTrip32(0, b[4..]);
      assert b == b[..4] + b[4..];
    }
  }

  /** An array of u16, each element big-endian. */
  function PutArray16(s: seq<u16>): (r: Bytes)
    ensures |r| == 2 * |s|
  {
    seq(2 * |s|, k requires 0 <= k < 2 * |s| => Put16(s[k / 2])[k % 2])
  }

  function GetArray16(b: Bytes): (r: seq<u16>)
    requires |b| % 2 == 0
    ensures 2 * |r| == |b|
    ensures forall i :: 0 <= i < |r| ==> r[i] == Get16([b[2 * i], b[2 * i + 1]])
  {
    seq(|b| / 2, i requires 0 <= i < |b| / 2 => Get16([b[2 * i], b[2 * i + 1]]))
  }

  lemma RoundTripArray16(s: seq<u16>)
    ensures GetArray16(PutArray16(s)) == s
  {
    var b := PutArray16(s);
    forall i | 0 <= i < |s|
      ensures Get16([b[2 * i], b[2 * i + 1]]) == s[i]
    {
      assert [b[2 * i], b[2 * i + 1]] == Put16(s[i]);
      RoundTrip16(s[i], []);
    }
  }
}
