/** Byte layouts, read with nothing but positional arithmetic: network byte order, the entry
    header, the frame header and the value of every option. */
module LayoutLaws {
  import opened Defs
  import opened Wire
  import opened Tlv
  import opened Msg

  /** The number a byte string spells: byte k of n weighs 256 to the power n - 1 - k. */
  function Weigh(b: Bytes): (v: nat) {
    if b == [] then 0 else Weigh(b[..|b| - 1]) * 256 + b[|b| - 1] as int
  }

  function Power256(n: nat): nat {
    if n == 0 then 1 else 256 * Power256(n - 1)
  }

  /** The weights are positional: a prefix counts 256 times for every byte after it. */
  lemma {:induction false} WeighAppend(a: Bytes, b: Bytes)
    ensures Weigh(a + b) == Weigh(a) * Power256(|b|) + Weigh(b)
  {
    if b == [] {
      assert a + b == a;
    } else {
      var front, w := b[..|b| - 1], b[|b| - 1] as int;
      assert (a + b)[..|a + b| - 1] == a + front;
      WeighAppend(a, front);
      Shifted(Weigh(a), Power256(|front|), Weigh(front), w);
    }
  }

  lemma Shifted(x: int, p: int, y: int, w: int)
    ensures (x * p + y) * 256 + w == x * (256 * p) + (y * 256 + w)
  {}

  lemma Powers()
    ensures Power256(1) == 0x100 && Power256(2) == 0x1_0000 && Power256(4) == 0x1_0000_0000
  {
    assert Power256(0) == 1 && Power256(1) == 256 && Power256(2) == 0x1_0000 && Power256(3) == 0x100_0000;
  }

  lemma Weigh16(b: Bytes)
    requires |b| == 2
    ensures Weigh(b) == b[0] as int * 256 + b[1] as int
  {
    var one := b[..1];
    assert one[..0] == [] && Weigh([]) == 0;
    assert Weigh(one) == b[0] as int;
  }

  /** Both directions of a 16-bit integer are in network byte order. */
  lemma BigEndian16(v: u16, b: Bytes)
    ensures Weigh(Put16(v)) == v
    ensures |b| == 2 ==> Get16(b) == Weigh(b)
  {
    Weigh16(Put16(v));
    if |b| == 2 { Weigh16(b); }
  }

  /** The same for 32 bits. */
  lemma BigEndian32(v: u32, b: Bytes)
    ensures Weigh(Put32(v)) == v
    ensures |b| == 4 ==> Get32(b) == Weigh(b)
  {
    hide Put16, Get16;
    Powers();
    BigEndian16(v / 0x1_0000, []);
    BigEndian16(v % 0x1_0000, []);
    WeighAppend(Put16(v / 0x1_0000), Put16(v % 0x1_0000));
    if |b| == 4 {
      BigEndian16(0, b[..2]);
      BigEndian16(0, b[2..]);
      WeighAppend(b[..2], b[2..]);
      assert b == b[..2] + b[2..];
    }
  }

  /** The same for 64 bits. */
  lemma BigEndian64(v: u64, b: Bytes)
    ensures Weigh(Put64(v)) == v
    ensures |b| == 8 ==> Get64(b) == Weigh(b)
  {
    hide Put32, Get32;
    Powers();
    BigEndian32(v / 0x1_0000_0000, []);
    BigEndian32(v % 0x1_0000_0000, []);
    WeighAppend(Put32(v / 0x1_0000_0000), Put32(v % 0x1_0000_0000));
    if |b| == 8 {
      BigEndian32(0, b[..4]);
      BigEndian32(0, b[4..]);
      WeighAppend(b[..4], b[4..]);
      assert b == b[..4] + b[4..];
    }
  }

  // ---------- Entries and frames ----------

  /** An entry is its type, the length of its value and the value. */
  lemma EntryLayout(e: Entry)
    ensures var b := EncodeEntry(e);
            |b| == 4 + |e.value| && Weigh(b[..2]) == e.kind && Weigh(b[2..4]) == |e.value| && b[4..] == e.value
  {
    hide Put16;
    var b := EncodeEntry(e);
    BigEndian16(e.kind, []);
    BigEndian16(|e.value|, []);
    assert b[..2] == Put16(e.kind) && b[2..4] == Put16(|e.value|);
  }

  /** A built frame starts with its type and the number of bytes that follow the header. */
  lemma FrameLayout(r: Request, cap: nat)
    requires cap < 0x1_0000_0000 && Encode(r, cap).Ok?
    ensures var b := Encode(r, cap).value;
            6 <= |b| <= cap && Weigh(b[..2]) == KindOf(r) && Weigh(b[2..6]) == |b| - 6
  {
    hide Options, Put16, Put32, KindOf;
    EmitFits(Options(r), cap - HEADER_LEN);
    var b, p := Encode(r, cap).value, Emit(Options(r), cap - HEADER_LEN).value;
    BigEndian16(KindOf(r), []);
    BigEndian32(|p|, []);
    assert b[..2] == Put16(KindOf(r)) && b[2..6] == Put32(|p|);
  }

  /** The value of every kind of option, byte by byte. */
  lemma OptionLayout(o: Opt)
    requires ValueOf(o).Ok?
    ensures var v := ValueOf(o).value;
            match o
            case U8(_, x) => v == [x]
            case U16(_, x) => |v| == 2 && Weigh(v) == x
            case U32(_, x) => |v| == 4 && Weigh(v) == x
            case U64(_, x) => |v| == 8 && Weigh(v) == x
            case Str(_, b) => v == b
            case Array(_, a) => |v| == 2 * |a| && forall k :: 0 <= k < |a| ==> Weigh(v[2 * k..2 * k + 2]) == a[k]
            case RingId(_, r) => |v| == 12 && Weigh(v[..4]) == r.node && Weigh(v[4..]) == r.sn
            case TieBreaker(_, t) =>
              |v| == 5 && v[0] == t.mode && Weigh(v[1..]) == if t.mode == TB_NODE_ID then t.node else 0
            case NodeInfo(_, n) =>
              Parse(v) == Ok([Entry(O_NODE_ID, Put32(n.nodeId))]
                             + (if n.dc.Some? then [Entry(O_DC, Put32(n.dc.value))] else [])
                             + (if n.state.Some? then [Entry(O_STATE, [n.state.value])] else []))
  {
    hide Put16, Put32, Put64, Weigh, Parse, EncodeEntry;
    var v := ValueOf(o).value;
    match o {
      case U16(_, x) => BigEndian16(x, []);
      case U32(_, x) => BigEndian32(x, []);
      case U64(_, x) => BigEndian64(x, []);
      case Array(_, a) => ArrayLayout(a);
      case RingId(_, r) =>
        BigEndian32(r.node, []);
        BigEndian64(r.sn, []);
        assert v[..4] == Put32(r.node) && v[4..] == Put64(r.sn);
      case TieBreaker(_, t) =>
        BigEndian32(if t.mode == TB_NODE_ID then t.node else 0, []);
        assert v[1..] == Put32(if t.mode == TB_NODE_ID then t.node else 0);
      case NodeInfo(_, n) => NodeLayout(n);
      case _ =>
    }
  }

  lemma ArrayLayout(a: seq<u16>)
    ensures forall k :: 0 <= k < |a| ==> Weigh(PutArray16(a)[2 * k..2 * k + 2]) == a[k]
  {
    hide Put16, Weigh;
    var v := PutArray16(a);
    forall k | 0 <= k < |a|
      ensures Weigh(v[2 * k..2 * k + 2]) == a[k]
    {
      assert v[2 * k] == Put16(a[k])[0] && v[2 * k + 1] == Put16(a[k])[1];
      assert v[2 * k..2 * k + 2] == Put16(a[k]);
      BigEndian16(a[k], []);
    }
  }

  lemma NodeLayout(n: Node)
    ensures Parse(NodeBytes(n)) == Ok([Entry(O_NODE_ID, Put32(n.nodeId))]
                                      + (if n.dc.Some? then [Entry(O_DC, Put32(n.dc.value))] else [])
                                      + (if n.state.Some? then [Entry(O_STATE, [n.state.value])] else []))
  {
    hide Put32, EncodeEntry;
    var id := [Entry(O_NODE_ID, Put32(n.nodeId))];
    var dc := if n.dc.Some? then [Entry(O_DC, Put32(n.dc.value))] else [];
    var state := if n.state.Some? then [Entry(O_STATE, [n.state.value])] else [];
    EncodeConcat(id, dc);
    EncodeConcat(id + dc, state);
    EncodeAtMostOne(id);
    EncodeAtMostOne(dc);
    EncodeAtMostOne(state);
    ParseEncoded(id + dc + state);
  }

  lemma EncodeAtMostOne(es: seq<Entry>)
    requires |es| <= 1
    ensures EncodeAll(es) == if es == [] then [] else EncodeEntry(es[0])
  {
    if es != [] { assert es[1..] == []; }
  }

  lemma {:induction false} EncodeConcat(a: seq<Entry>, b: seq<Entry>)
    ensures EncodeAll(a + b) == EncodeAll(a) + EncodeAll(b)
  {
    if a == [] {
      assert a + b == b;
    } else {
      assert (a + b)[1..] == a[1..] + b;
      EncodeConcat(a[1..], b);
    }
  }

  /** A header is accepted exactly when its type is known and the frame it announces is
      within the limit and complete. */
  lemma HeaderExactly(frame: Bytes, max: nat)
    ensures Check(frame, max).Ok? <==>
            |frame| >= 6 && Weigh(frame[..2]) <= 17
            && 6 + Weigh(frame[2..6]) <= max && 6 + Weigh(frame[2..6]) <= |frame|
    ensures Check(frame, max).Ok? ==>
            Check(frame, max).value.kind == Weigh(frame[..2]) && Check(frame, max).value.len == Weigh(frame[2..6])
  {
    hide Weigh, Get16, Get32;
    if |frame| >= 6 {
      BigEndian16(0, frame[..2]);
      BigEndian32(0, frame[2..6]);
    }
  }

  lemma KnownNumbers()
    ensures Put16(0) == [0, 0] && Put16(1) == [0, 1] && Put16(0x0102) == [1, 2] && Put16(2) == [0, 2]
    ensures Put32(1) == [0, 0, 0, 1] && Put32(7) == [0, 0, 0, 7]
    ensures RingBytes(Ring(1, 10)) == [0, 0, 0, 1, 0, 0, 0, 0, 0, 0, 0, 10]
  {
    assert Put32(10) == [0, 0, 0, 10] && Put64(10) == [0, 0, 0, 0, 0, 0, 0, 10];
  }

  lemma KnownEntries()
    ensures EncodeEntry(Entry(0x0102, [0xaa, 0xbb])) == [0x01, 0x02, 0x00, 0x02, 0xaa, 0xbb]
    ensures EncodeEntry(Entry(O_CLUSTER, [97])) == [0, 1, 0, 1, 97]
    ensures EncodeEntry(Entry(O_VOTE, [2])) == [0, 19, 0, 1, 2]
    ensures EncodeEntry(Entry(O_SEQ, Put32(7))) == [0, 0, 0, 4, 0, 0, 0, 7]
    ensures EncodeEntry(Entry(O_RING, RingBytes(Ring(1, 10)))) == [0, 13, 0, 12, 0, 0, 0, 1, 0, 0, 0, 0, 0, 0, 0, 10]
  {
    KnownNumbers();
    hide RingBytes, Put32;
  }

  /** The PREINIT of cluster "a", byte by byte. */
  lemma KnownPreinit()
    ensures Encode(Preinit(None, [97]), 11) == Ok([0, 0, 0, 0, 0, 5, 0, 1, 0, 1, 97])
  {
    KnownEntries();
    KnownNumbers();
    assert Put32(5) == [0, 0, 0, 5];
    hide EncodeEntry, Put16, Put32, Emit, Encode;
    var entry: Bytes := [0, 1, 0, 1, 97];
    NoOptions(0);
    KnownOption(Str(O_CLUSTER, [97]), [], 5, entry);
    assert [Str(O_CLUSTER, [97])] + [] == Options(Preinit(None, [97]));
    assert entry + [] == entry;
    KnownFrame(Preinit(None, [97]), 11, entry);
    var kind: Bytes, len: Bytes := [0, 0], [0, 0, 0, 5];
    assert Put16(KindOf(Preinit(None, [97]))) == kind && Put32(|entry|) == len;
    assert kind + len + entry == [0, 0, 0, 0, 0, 5, 0, 1, 0, 1, 97];
  }

  const VOTE_OPTIONS: Bytes :=
    [0, 0, 0, 4, 0, 0, 0, 7] + ([0, 19, 0, 1, 2] + [0, 13, 0, 12, 0, 0, 0, 1, 0, 0, 0, 0, 0, 0, 0, 10])

  lemma KnownVoteOptions()
    ensures Emit(Options(AskForVoteReply(7, 2, Ring(1, 10))), 58) == Ok(VOTE_OPTIONS)
  {
    KnownEntries();
    hide EncodeEntry, Put16, Put32, RingBytes, Emit;
    var ring, entry: Bytes := RingId(O_RING, Ring(1, 10)), [0, 13, 0, 12, 0, 0, 0, 1, 0, 0, 0, 0, 0, 0, 0, 10];
    assert [ring] + [] == [ring] && [U8(O_VOTE, 2)] + [ring] == [U8(O_VOTE, 2), ring] && entry + [] == entry;
    NoOptions(29);
    KnownOption(ring, [], 45, entry);
    KnownOption(U8(O_VOTE, 2), [ring], 50, [0, 19, 0, 1, 2]);
    KnownOption(U32(O_SEQ, 7), [U8(O_VOTE, 2), ring], 58, [0, 0, 0, 4, 0, 0, 0, 7]);
    assert [U32(O_SEQ, 7)] + [U8(O_VOTE, 2), ring] == Options(AskForVoteReply(7, 2, Ring(1, 10)));
  }

  /** The reply to an ASK_FOR_VOTE, byte by byte. */
  lemma KnownVote()
    ensures Encode(AskForVoteReply(7, 2, Ring(1, 10)), 64) == Ok([0, 13, 0, 0, 0, 29] + VOTE_OPTIONS)
  {
    KnownVoteOptions();
    var kind: Bytes, len: Bytes := [0, 13], [0, 0, 0, 29];
    assert Put16(13) == kind && Put32(29) == len && kind + len == [0, 13, 0, 0, 0, 29];
    hide Put16, Put32, Emit, Encode, Options;
    KnownFrame(AskForVoteReply(7, 2, Ring(1, 10)), 64, VOTE_OPTIONS);
  }

  lemma NoOptions(room: int)
    ensures Emit([], room) == Ok([])
  {}

  lemma KnownFrame(r: Request, cap: nat, p: Bytes)
    requires HEADER_LEN <= cap < 0x1_0000_0000 && |p| < 0x1_0000 && Emit(Options(r), cap - HEADER_LEN) == Ok(p)
    ensures Encode(r, cap) == Ok(Put16(KindOf(r)) + Put32(|p|) + p)
  {}

  lemma KnownOption(o: Opt, rest: seq<Opt>, room: nat, bytes: Bytes)
    requires ValueOf(o).Ok? && EncodeEntry(Entry(o.kind, ValueOf(o).value)) == bytes && |bytes| <= room
    requires Emit(rest, room - |bytes|).Ok?
    ensures Emit([o] + rest, room) == Ok(bytes + Emit(rest, room - |bytes|).value)
  {
    assert ([o] + rest)[1..] == rest;
  }
}
