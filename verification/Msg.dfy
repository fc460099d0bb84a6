/** Message framing in C (firmware/qdevice/msg.c, firmware/qdevice/tlv.c): builders that
    append options to a fixed buffer and backfill the header, and the decoder that fills
    a struct from an option stream. */
module Msg {
  import opened Defs
  import opened Wire
  import opened Tlv

  const HEADER_LEN: nat := 6
  const TYPE_MAX: u16 := 17
  const MAX_NODES: nat := 32
  const MAX_MSG_LIST: nat := 32
  const MAX_OPT_LIST: nat := 32
  const MAX_ALGO_LIST: nat := 8

  const OK: int := 0

  // Option kinds.
  const O_SEQ: u16 := 0
  const O_CLUSTER: u16 := 1
  const O_TLS: u16 := 2
  const O_CERT_REQ: u16 := 3
  const O_SUP_MSGS: u16 := 4
  const O_SUP_OPTS: u16 := 5
  const O_ERROR: u16 := 6
  const O_MAX_REQ: u16 := 7
  const O_MAX_REP: u16 := 8
  const O_NODE_ID: u16 := 9
  const O_SUP_ALGOS: u16 := 10
  const O_ALGORITHM: u16 := 11
  const O_HEARTBEAT: u16 := 12
  const O_RING: u16 := 13
  const O_CONFIG: u16 := 14
  const O_DC: u16 := 15
  const O_STATE: u16 := 16
  const O_NODE_INFO: u16 := 17
  const O_LIST_TYPE: u16 := 18
  const O_VOTE: u16 := 19
  const O_QUORATE: u16 := 20
  const O_TIE: u16 := 21
  const O_HEUR: u16 := 22
  const O_KAP: u16 := 23

  // Message types.
  const PREINIT: u16 := 0
  const PREINIT_REPLY: u16 := 1
  const STARTTLS: u16 := 2
  const INIT: u16 := 3
  const INIT_REPLY: u16 := 4
  const SERVER_ERROR: u16 := 5
  const SET_OPTION: u16 := 6
  const SET_OPTION_REPLY: u16 := 7
  const ECHO_REQUEST: u16 := 8
  const ECHO_REPLY: u16 := 9
  const NODE_LIST: u16 := 10
  const NODE_LIST_REPLY: u16 := 11
  const ASK_FOR_VOTE: u16 := 12
  const ASK_FOR_VOTE_REPLY: u16 := 13
  const VOTE_INFO: u16 := 14
  const VOTE_INFO_REPLY: u16 := 15
  const HEURISTICS_CHANGE: u16 := 16
  const HEURISTICS_CHANGE_REPLY: u16 := 17

  datatype Ring = Ring(node: u32, sn: u64)

  datatype Tie = Tie(mode: u8, node: u32)

  datatype Node = Node(nodeId: u32, dc: Option<u32>, state: Option<u8>)

  /** `qesp_msg_t`; a flag-and-value pair is an option. */
  datatype Msg = Msg(
    kind: u16,
    sn: Option<u32>, cluster: Option<Bytes>, tls: Option<u8>, certReq: Option<u8>,
    nodeId: Option<u32>, algorithm: Option<u16>, heartbeat: Option<u32>,
    ring: Option<Ring>, config: Option<u64>, dc: Option<u32>,
    listType: Option<u8>, vote: Option<u8>, quorate: Option<u8>, tie: Option<Tie>,
    heur: Option<u8>, kap: Option<u8>,
    error: Option<u16>, maxReq: Option<u32>, maxRep: Option<u32>,
    supMsgs: seq<u16>, supOpts: seq<u16>, supAlgos: seq<u16>,
    nodes: seq<Node>)

  function EmptyMsg(kind: u16): Msg {
    Msg(kind, None, None, None, None, None, None, None, None, None, None, None, None, None, None,
        None, None, None, None, None, [], [], [], [])
  }

  // ---------- Specification: options and requests ----------

  datatype Opt =
    | U8(kind: u16, v8: u8)
    | U16(kind: u16, v16: u16)
    | U32(kind: u16, v32: u32)
    | U64(kind: u16, v64: u64)
    | Str(kind: u16, bytes: Bytes)
    | Array(kind: u16, arr: seq<u16>)
    | RingId(kind: u16, ring: Ring)
    | TieBreaker(kind: u16, tie: Tie)
    | NodeInfo(kind: u16, node: Node)

  predicate TieMode(m: u8) {
    m == TB_LOWEST || m == TB_HIGHEST || m == TB_NODE_ID
  }

  function RingBytes(r: Ring): (b: Bytes)
    ensures |b| == 12
  {
    Put32(r.node) + Put64(r.sn)
  }

  function TieBytes(t: Tie): (b: Bytes)
    ensures |b| == 5
  {
    [t.mode] + Put32(if t.mode == TB_NODE_ID then t.node else 0)
  }

  function NodeBytes(n: Node): (b: Bytes)
    ensures |b| <= 21
  {
    EncodeEntry(Entry(O_NODE_ID, Put32(n.nodeId)))
    + (if n.dc.Some? then EncodeEntry(Entry(O_DC, Put32(n.dc.value))) else [])
    + (if n.state.Some? then EncodeEntry(Entry(O_STATE, [n.state.value])) else [])
  }

  /** The value bytes of an option, or the code with which its adder refuses it. */
  function ValueOf(o: Opt): (r: Result<Value, int>)
    ensures r.Err? ==> r.error < 0
  {
    match o
    case U8(_, v) => Ok([v])
    case U16(_, v) => Ok(Put16(v))
    case U32(_, v) => Ok(Put32(v))
    case U64(_, v) => Ok(Put64(v))
    case Str(_, b) => if |b| > 0xffff then Err(ERR_INVAL) else Ok(b)
    case Array(_, a) => if 2 * |a| > 256 then Err(ERR_NOMEM) else Ok(PutArray16(a))
    case RingId(_, r) => Ok(RingBytes(r))
    case TieBreaker(_, t) => if !TieMode(t.mode) then Err(ERR_RANGE) else Ok(TieBytes(t))
    case NodeInfo(_, n) => if n.nodeId == 0 then Err(ERR_INVAL) else Ok(NodeBytes(n))
  }

  /** The bytes of a list of options within `room`, or the first refusal. */
  function Emit(os: seq<Opt>, room: int): (r: Result<Bytes, int>)
    ensures r.Err? ==> r.error < 0
  {
    if os == [] then Ok([])
    else
      var v :- ValueOf(os[0]);
      if 4 + |v| > room then Err(ERR_NOMEM)
      else
        var rest :- Emit(os[1..], room - 4 - |v|);
        Ok(EncodeEntry(Entry(os[0].kind, v)) + rest)
  }

  /** The argument lists of the builders. */
  datatype Request =
    | Preinit(sn: Option<u32>, cluster: Bytes)
    | PreinitReply(sn: Option<u32>, tls: u8, certReq: u8)
    | Starttls(sn: Option<u32>)
    | Init(sn: Option<u32>, algorithm: u16, nodeId: u32, heartbeat: u32, tie: Tie, ring: Ring)
    | InitReply(sn: Option<u32>, error: u16, maxReq: u32, maxRep: u32, algos: seq<u16>)
    | ServerError(sn: Option<u32>, error: u16)
    | EchoRequest(sn: Option<u32>)
    | NodeList(n: u32, listType: u8, ringOpt: Option<Ring>, config: Option<u64>,
               quorate: Option<u8>, heurOpt: Option<u8>, nodes: seq<Node>)
    | NodeListReply(n: u32, listType: u8, ring: Ring, vote: u8)
    | AskForVote(n: u32)
    | AskForVoteReply(n: u32, vote: u8, ring: Ring)
    | VoteInfo(n: u32, vote: u8, ring: Ring)
    | VoteInfoReply(n: u32)
    | HeuristicsChange(n: u32, heur: u8)
    | HeuristicsChangeReply(n: u32, vote: u8, ring: Ring, heur: u8)
    | SetOption(sn: Option<u32>, hb: Option<u32>, kap: Option<u8>)
    | SetOptionReply(sn: Option<u32>, hb: Option<u32>, kap: Option<u8>)

  function KindOf(r: Request): (k: u16)
    ensures k <= TYPE_MAX
  {
    match r
    case Preinit(_, _) => PREINIT
    case PreinitReply(_, _, _) => PREINIT_REPLY
    case Starttls(_) => STARTTLS
    case Init(_, _, _, _, _, _) => INIT
    case InitReply(_, _, _, _, _) => INIT_REPLY
    case ServerError(_, _) => SERVER_ERROR
    case EchoRequest(_) => ECHO_REQUEST
    case NodeList(_, _, _, _, _, _, _) => NODE_LIST
    case NodeListReply(_, _, _, _) => NODE_LIST_REPLY
    case AskForVote(_) => ASK_FOR_VOTE
    case AskForVoteReply(_, _, _) => ASK_FOR_VOTE_REPLY
    case VoteInfo(_, _, _) => VOTE_INFO
    case VoteInfoReply(_) => VOTE_INFO_REPLY
    case HeuristicsChange(_, _) => HEURISTICS_CHANGE
    case HeuristicsChangeReply(_, _, _, _) => HEURISTICS_CHANGE_REPLY
    case SetOption(_, _, _) => SET_OPTION
    case SetOptionReply(_, _, _) => SET_OPTION_REPLY
  }

  const SUP_MSGS: seq<u16> := [0, 1, 2, 3, 4, 5, 6, 7, 8, 9, 10, 11, 12, 13, 14, 15, 16, 17]
  const SUP_OPTS: seq<u16> :=
    [0, 1, 2, 3, 4, 5, 6, 7, 8, 9, 10, 11, 12, 13, 14, 15, 16, 17, 18, 19, 20, 21, 22, 23]

  function SeqOpt(sn: Option<u32>): seq<Opt> {
    if sn.Some? then [U32(O_SEQ, sn.value)] else []
  }

  function Opt8(kind: u16, v: Option<u8>): seq<Opt> {
    if v.Some? then [U8(kind, v.value)] else []
  }

  function NodeOpts(nodes: seq<Node>): (os: seq<Opt>)
    ensures |os| == |nodes|
    ensures forall i :: 0 <= i < |os| ==> os[i] == NodeInfo(O_NODE_INFO, nodes[i])
  {
    if nodes == [] then [] else NodeOpts(nodes[..|nodes| - 1]) + [NodeInfo(O_NODE_INFO, nodes[|nodes| - 1])]
  }

  function SettingOpts(sn: Option<u32>, hb: Option<u32>, kap: Option<u8>): seq<Opt> {
    SeqOpt(sn) + (if hb.Some? then [U32(O_HEARTBEAT, hb.value)] else []) + Opt8(O_KAP, kap)
  }

  /** The options of a message, in the order its builder appends them. */
  function Options(r: Request): seq<Opt> {
    match r
    case Preinit(s, c) => SeqOpt(s) + [Str(O_CLUSTER, c)]
    case PreinitReply(s, t, c) => SeqOpt(s) + [U8(O_TLS, t), U8(O_CERT_REQ, c)]
    case Starttls(s) => SeqOpt(s)
    case Init(s, a, id, hb, tie, ring) =>
      SeqOpt(s) + [Array(O_SUP_MSGS, SUP_MSGS), Array(O_SUP_OPTS, SUP_OPTS), U32(O_NODE_ID, id),
                   U16(O_ALGORITHM, a), U32(O_HEARTBEAT, hb), TieBreaker(O_TIE, tie), RingId(O_RING, ring)]
    case InitReply(s, e, mq, mr, algos) =>
      [U16(O_ERROR, e), Array(O_SUP_MSGS, SUP_MSGS), Array(O_SUP_OPTS, SUP_OPTS)] + SeqOpt(s)
      + [U32(O_MAX_REQ, mq), U32(O_MAX_REP, mr), Array(O_SUP_ALGOS, algos)]
    case ServerError(s, e) => SeqOpt(s) + [U16(O_ERROR, e)]
    case EchoRequest(s) => SeqOpt(s)
    case NodeList(n, lt, ring, cfg, q, h, nodes) =>
      [U32(O_SEQ, n), U8(O_LIST_TYPE, lt)]
      + (if ring.Some? then [RingId(O_RING, ring.value)] else [])
      + (if cfg.Some? then [U64(O_CONFIG, cfg.value)] else [])
      + Opt8(O_QUORATE, q) + NodeOpts(nodes)
      + (if h.Some? && h.value != HEUR_UNDEFINED then [U8(O_HEUR, h.value)] else [])
    case NodeListReply(n, lt, ring, v) =>
      [U32(O_SEQ, n), U8(O_LIST_TYPE, lt), RingId(O_RING, ring), U8(O_VOTE, v)]
    case AskForVote(n) => [U32(O_SEQ, n)]
    case AskForVoteReply(n, v, ring) => [U32(O_SEQ, n), U8(O_VOTE, v), RingId(O_RING, ring)]
    case VoteInfo(n, v, ring) => [U32(O_SEQ, n), U8(O_VOTE, v), RingId(O_RING, ring)]
    case VoteInfoReply(n) => [U32(O_SEQ, n)]
    case HeuristicsChange(n, h) => [U32(O_SEQ, n), U8(O_HEUR, h)]
    case HeuristicsChangeReply(n, v, ring, h) =>
      [U32(O_SEQ, n), U8(O_VOTE, v), RingId(O_RING, ring), U8(O_HEUR, h)]
    case SetOption(s, hb, kap) => SettingOpts(s, hb, kap)
    case SetOptionReply(s, hb, kap) => SettingOpts(s, hb, kap)
  }

  function Frame(kind: u16, payload: Bytes): (r: Bytes)
    requires |payload| < 0x1_0000_0000
    ensures |r| == HEADER_LEN + |payload|
  {
    Put16(kind) + Put32(|payload|) + payload
  }

  /** What building `r` into an empty buffer of `cap` bytes leaves there. */
  function Encode(r: Request, cap: nat): Result<Bytes, int>
    requires cap < 0x1_0000_0000
  {
    if cap < HEADER_LEN then Err(ERR_NOMEM)
    else
      var p :- Emit(Options(r), cap - HEADER_LEN);
      EmitFits(Options(r), cap - HEADER_LEN);
      Ok(Frame(KindOf(r), p))
  }

  lemma {:induction false} EmitFits(os: seq<Opt>, room: int)
    requires room >= 0
    ensures Emit(os, room).Ok? ==> |Emit(os, room).value| <= room
  {
    if os != [] && ValueOf(os[0]).Ok? && 4 + |ValueOf(os[0]).value| <= room {
      EmitFits(os[1..], room - 4 - |ValueOf(os[0]).value|);
    }
  }

  function Prefixed(a: Bytes, r: Result<Bytes, int>): Result<Bytes, int> {
    match r case Ok(b) => Ok(a + b) case Err(c) => Err(c)
  }

  /** An adder's outcome: `expected` appended to the contents, or its error returned. */
  ghost predicate Appends(rc: int, before: Bytes, after: Bytes, expected: Result<Bytes, int>) {
    match expected case Ok(b) => rc == OK && after == before + b case Err(c) => rc == c
  }

  // ---------- The buffer and the builders ----------

  class Buf {
    const mem: array<u8>
    var len: nat

    ghost predicate Valid()
      reads this
    {
      len <= mem.Length < 0x1_0000_0000
    }

    ghost function Contents(): Bytes
      requires Valid()
      reads this, mem
    {
      mem[..len]
    }

    constructor (cap: nat)
      requires cap < 0x1_0000_0000
      ensures Valid() && fresh(mem) && mem.Length == cap && len == 0
    {
      mem := new u8[cap](_ => 0);
      len := 0;
    }

    /** `qesp_tlv_add`: the entry is appended whole or not at all. */
    method AddTlv(kind: u16, val: Value) returns (rc: int)
      requires Valid()
      modifies this`len, mem
      ensures Valid()
      ensures old(len) + 4 + |val| <= mem.Length ==>
                rc == OK && Contents() == old(Contents()) + EncodeEntry(Entry(kind, val))
      ensures old(len) + 4 + |val| > mem.Length ==> rc == ERR_NOMEM && Contents() == old(Contents())
    {
      var need := 4 + |val|;
      if len + need > mem.Length {
        return ERR_NOMEM;
      }
      var header := Put16(kind) + Put16(|val|);
      mem[len], mem[len + 1], mem[len + 2], mem[len + 3] := header[0], header[1], header[2], header[3];
      var i := 0;
      while i < |val|
        invariant 0 <= i <= |val| && len == old(len)
        invariant mem[..len + 4 + i] == old(mem[..len]) + header + val[..i]
      {
        mem[len + 4 + i] := val[i];
        i := i + 1;
      }
      assert val[..|val|] == val;
      len := len + need;
      return OK;
    }

    method AddNodeInfo(kind: u16, n: Node) returns (rc: int)
      requires Valid()
      modifies this`len, mem
      ensures Valid()
      ensures Appends(rc, old(Contents()), Contents(), Emit([NodeInfo(kind, n)], mem.Length - old(len)))
    {
      if n.nodeId == 0 {
        return ERR_INVAL;
      }
      var v := NestedNode(n);
      rc := AddTlv(kind, v);
      SingleEmit(NodeInfo(kind, n), mem.Length - old(len));
    }

    /** The nested options, staged in a 32-byte buffer. */
    static method NestedNode(n: Node) returns (v: Value)
      requires n.nodeId != 0
      ensures v == NodeBytes(n)
    {
      var inner := new Buf(32);
      var rc := inner.AddTlv(O_NODE_ID, Put32(n.nodeId));
      ghost var id := EncodeEntry(Entry(O_NODE_ID, Put32(n.nodeId)));
      assert inner.Contents() == id;
      ghost var dc: Bytes := [];
      if n.dc.Some? {
        rc := inner.AddTlv(O_DC, Put32(n.dc.value));
        dc := EncodeEntry(Entry(O_DC, Put32(n.dc.value)));
      }
      assert inner.Contents() == id + dc;
      if n.state.Some? {
        rc := inner.AddTlv(O_STATE, [n.state.value]);
      }
      v := inner.mem[..inner.len];
    }

    /** The typed adders: refuse the value, or append its entry. */
    method Add(o: Opt) returns (rc: int)
      requires Valid()
      modifies this`len, mem
      ensures Valid()
      ensures Appends(rc, old(Contents()), Contents(), Emit([o], mem.Length - old(len)))
    {
      SingleEmit(o, mem.Length - len);
      match o {
        case U8(kind, v) => rc := AddTlv(kind, [v]);
        case U16(kind, v) => rc := AddTlv(kind, Put16(v));
        case U32(kind, v) => rc := AddTlv(kind, Put32(v));
        case U64(kind, v) => rc := AddTlv(kind, Put64(v));
        case Str(kind, b) =>
          if |b| > 0xffff {
            return ERR_INVAL;
          }
          rc := AddTlv(kind, b);
        case Array(kind, a) =>
          if 2 * |a| > 256 {
            return ERR_NOMEM;
          }
          var tmp: Bytes := [];
          var i := 0;
          while i < |a|
            invariant 0 <= i <= |a| && tmp == PutArray16(a)[..2 * i]
            invariant Contents() == old(Contents()) && len == old(len) && Valid()
          {
            tmp := tmp + Put16(a[i]);
            i := i + 1;
          }
          rc := AddTlv(kind, tmp);
        case RingId(kind, r) => rc := AddTlv(kind, Put32(r.node) + Put64(r.sn));
        case TieBreaker(kind, t) =>
          if !TieMode(t.mode) {
            return ERR_RANGE;
          }
          rc := AddTlv(kind, [t.mode] + Put32(if t.mode == TB_NODE_ID then t.node else 0));
        case NodeInfo(kind, n) => rc := AddNodeInfo(kind, n);
      }
    }

    /** `qesp_msg_begin`: reserve the header. */
    method Begin(kind: u16) returns (rc: int)
      requires Valid()
      modifies this`len, mem
      ensures Valid()
      ensures kind > TYPE_MAX ==> rc == ERR_RANGE
      ensures kind <= TYPE_MAX && old(len) + HEADER_LEN > mem.Length ==> rc == ERR_NOMEM
      ensures rc != OK ==> Contents() == old(Contents())
      ensures kind <= TYPE_MAX && old(len) + HEADER_LEN <= mem.Length ==>
                rc == OK && Contents() == old(Contents()) + Put16(kind) + [0, 0, 0, 0]
    {
      if kind > TYPE_MAX {
        return ERR_RANGE;
      }
      if len + HEADER_LEN > mem.Length {
        return ERR_NOMEM;
      }
      var h := Put16(kind);
      mem[len], mem[len + 1] := h[0], h[1];
      mem[len + 2], mem[len + 3], mem[len + 4], mem[len + 5] := 0, 0, 0, 0;
      len := len + HEADER_LEN;
      return OK;
    }

    /** `qesp_msg_end`: backfill the payload length, which is the total minus 6. */
    method End() returns (rc: int)
      requires Valid()
      modifies mem
      ensures Valid()
      ensures len < HEADER_LEN ==> rc == ERR_INVAL && Contents() == old(Contents())
      ensures len >= HEADER_LEN ==>
                rc == OK && Contents() == old(Contents())[..2] + Put32(len - HEADER_LEN) + old(Contents())[6..]
    {
      if len < HEADER_LEN {
        return ERR_INVAL;
      }
      var p := Put32(len - HEADER_LEN);
      mem[2], mem[3], mem[4], mem[5] := p[0], p[1], p[2], p[3];
      return OK;
    }

    /** The option calls of a builder: stop at the first refusal. */
    method AddAll(os: seq<Opt>) returns (rc: int)
      requires Valid()
      modifies this`len, mem
      ensures Valid()
      ensures Appends(rc, old(Contents()), Contents(), Emit(os, mem.Length - old(len)))
    {
      hide ValueOf, EncodeEntry;
      ghost var goal := Prefixed(Contents(), Emit(os, mem.Length - len));
      rc := OK;
      var i := 0;
      assert os[0..] == os;
      while i < |os|
        invariant Valid() && 0 <= i <= |os| && rc == OK
        invariant goal == Prefixed(Contents(), Emit(os[i..], mem.Length - len))
      {
        ghost var here, room := Contents(), mem.Length - len;
        EmitSplit(os[i..], room);
        assert os[i..][1..] == os[i + 1..];
        rc := Add(os[i]);
        if rc != OK {
          return;
        }
        ghost var one := Emit([os[i]], room).value;
        PrefixedTwice(here, one, Emit(os[i + 1..], room - |one|));
        i := i + 1;
      }
      assert os[i..] == [] && Contents() + [] == Contents();
    }

    /** Every builder: begin, append the options in order, end. */
    method Build(r: Request) returns (rc: int)
      requires Valid() && len == 0
      modifies this`len, mem
      ensures Valid()
      ensures Appends(rc, [], Contents(), Encode(r, mem.Length))
    {
      rc := Begin(KindOf(r));
      if rc != OK {
        return;
      }
      ghost var header := Contents();
      assert header == Put16(KindOf(r)) + [0, 0, 0, 0];
      rc := AddAll(Options(r));
      if rc != OK {
        return;
      }
      ghost var p := Emit(Options(r), mem.Length - HEADER_LEN).value;
      assert Contents()[6..] == p && Contents()[..2] == Put16(KindOf(r));
      rc := End();
    }
  }

  lemma SingleEmit(o: Opt, room: int)
    ensures Emit([o], room) ==
            match ValueOf(o)
            case Err(c) => Err(c)
            case Ok(v) => if 4 + |v| > room then Err(ERR_NOMEM) else Ok(EncodeEntry(Entry(o.kind, v)))
  {
    assert [o][1..] == [];
    if ValueOf(o).Ok? {
      var e := EncodeEntry(Entry(o.kind, ValueOf(o).value));
      assert e + [] == e;
    }
  }

  lemma EmitSplit(os: seq<Opt>, room: int)
    requires os != []
    ensures Emit([os[0]], room).Ok? ==>
              Emit(os, room) == Prefixed(Emit([os[0]], room).value, Emit(os[1..], room - |Emit([os[0]], room).value|))
    ensures Emit([os[0]], room).Err? ==> Emit(os, room) == Emit([os[0]], room)
  {
    SingleEmit(os[0], room);
  }

  lemma PrefixedTwice(a: Bytes, b: Bytes, r: Result<Bytes, int>)
    ensures Prefixed(a, Prefixed(b, r)) == Prefixed(a + b, r)
  {
    if r.Ok? {
      assert a + (b + r.value) == (a + b) + r.value;
    }
  }

  // ---------- Specification: the decoder ----------

  datatype Header = Header(kind: u16, len: u32)

  function Check(frame: Bytes, max: nat): (r: Result<Header, int>)
    ensures r.Ok? ==> HEADER_LEN + r.value.len <= |frame| && HEADER_LEN + r.value.len <= max
  {
    if |frame| < HEADER_LEN then Err(ERR_TRUNC)
    else
      var t, l := Get16(frame[..2]), Get32(frame[2..6]);
      if t > TYPE_MAX then Err(ERR_RANGE)
      else if HEADER_LEN + l > max then Err(ERR_NOMEM)
      else if |frame| < HEADER_LEN + l then Err(ERR_TRUNC)
      else Ok(Header(t, l))
  }

  function Val8(v: Value): Result<u8, int> {
    if |v| != 1 then Err(ERR_INVAL) else Ok(v[0])
  }

  function Val16(v: Value): Result<u16, int> {
    if |v| != 2 then Err(ERR_INVAL) else Ok(Get16(v))
  }

  function Val32(v: Value): Result<u32, int> {
    if |v| != 4 then Err(ERR_INVAL) else Ok(Get32(v))
  }

  function Val64(v: Value): Result<u64, int> {
    if |v| != 8 then Err(ERR_INVAL) else Ok(Get64(v))
  }

  function ValArray(v: Value, cap: nat): Result<seq<u16>, int> {
    if |v| % 2 != 0 || |v| / 2 > cap then Err(ERR_INVAL) else Ok(GetArray16(v))
  }

  function ValRing(v: Value): Result<Ring, int> {
    if |v| != 12 then Err(ERR_INVAL) else Ok(Ring(Get32(v[..4]), Get64(v[4..])))
  }

  function ValTie(v: Value): Result<Tie, int> {
    if |v| != 5 || !TieMode(v[0]) then Err(ERR_INVAL)
    else Ok(Tie(v[0], if v[0] == TB_NODE_ID then Get32(v[1..]) else 0))
  }

  /** A byte between `lo` and `hi`; every allowed set of the protocol is such a range. */
  function ValRange(v: Value, lo: u8, hi: u8): Result<u8, int> {
    if |v| != 1 || v[0] < lo || v[0] > hi then Err(ERR_RANGE) else Ok(v[0])
  }

  function ApplyNode(n: Node, e: Entry): Result<Node, int> {
    if e.kind == O_NODE_ID then var x :- Val32(e.value); Ok(n.(nodeId := x))
    else if e.kind == O_DC then var x :- Val32(e.value); Ok(n.(dc := Some(x)))
    else if e.kind == O_STATE then var x :- ValRange(e.value, 1, 3); Ok(n.(state := Some(x)))
    else Ok(n)
  }

  function FoldNode(n: Node, b: Bytes): Result<Node, int>
    decreases |b|
  {
    match NextOf(b)
    case End => Ok(n)
    case Bad(c) => Err(c)
    case Item(e, rest) => var n' :- ApplyNode(n, e); FoldNode(n', rest)
  }

  function DecodeNode(v: Value): Result<Node, int> {
    var n :- FoldNode(Node(0, None, None), v);
    if n.nodeId == 0 then Err(ERR_INVAL) else Ok(n)
  }

  function ApplyNodeInfo(m: Msg, v: Value): Result<Msg, int> {
    if |m.nodes| >= MAX_NODES then Err(ERR_NOMEM)
    else
      match DecodeNode(v)
      case Err(_) => Err(ERR_INVAL)
      case Ok(n) => Ok(m.(nodes := m.nodes + [n]))
  }

  /** Options 0-5. */
  function ApplyIdentity(m: Msg, e: Entry): Result<Msg, int> {
    if e.kind == O_SEQ then var x :- Val32(e.value); Ok(m.(sn := Some(x)))
    else if e.kind == O_CLUSTER then Ok(m.(cluster := Some(e.value)))
    else if e.kind == O_TLS then var x :- ValRange(e.value, 0, 2); Ok(m.(tls := Some(x)))
    else if e.kind == O_CERT_REQ then var x :- Val8(e.value); Ok(m.(certReq := Some(x)))
    else if e.kind == O_SUP_MSGS then var x :- ValArray(e.value, MAX_MSG_LIST); Ok(m.(supMsgs := x))
    else if e.kind == O_SUP_OPTS then var x :- ValArray(e.value, MAX_OPT_LIST); Ok(m.(supOpts := x))
    else Ok(m)
  }

  /** Options 6-11. */
  function ApplyCapability(m: Msg, e: Entry): Result<Msg, int> {
    if e.kind == O_ERROR then var x :- Val16(e.value); Ok(m.(error := Some(x)))
    else if e.kind == O_MAX_REQ then var x :- Val32(e.value); Ok(m.(maxReq := Some(x)))
    else if e.kind == O_MAX_REP then var x :- Val32(e.value); Ok(m.(maxRep := Some(x)))
    else if e.kind == O_NODE_ID then var x :- Val32(e.value); Ok(m.(nodeId := Some(x)))
    else if e.kind == O_SUP_ALGOS then var x :- ValArray(e.value, MAX_ALGO_LIST); Ok(m.(supAlgos := x))
    else if e.kind == O_ALGORITHM then var x :- Val16(e.value); Ok(m.(algorithm := Some(x)))
    else Ok(m)
  }

  /** Options 12-17. */
  function ApplyCluster(m: Msg, e: Entry): Result<Msg, int> {
    if e.kind == O_HEARTBEAT then var x :- Val32(e.value); Ok(m.(heartbeat := Some(x)))
    else if e.kind == O_RING then var x :- ValRing(e.value); Ok(m.(ring := Some(x)))
    else if e.kind == O_CONFIG then var x :- Val64(e.value); Ok(m.(config := Some(x)))
    else if e.kind == O_DC then var x :- Val32(e.value); Ok(m.(dc := Some(x)))
    else if e.kind == O_STATE then var x :- ValRange(e.value, 1, 3); Ok(m)
    else if e.kind == O_NODE_INFO then ApplyNodeInfo(m, e.value)
    else Ok(m)
  }

  /** Options 18-23. */
  function ApplyDecision(m: Msg, e: Entry): Result<Msg, int> {
    if e.kind == O_LIST_TYPE then var x :- ValRange(e.value, 0, 3); Ok(m.(listType := Some(x)))
    else if e.kind == O_VOTE then var x :- ValRange(e.value, 1, 5); Ok(m.(vote := Some(x)))
    else if e.kind == O_QUORATE then var x :- ValRange(e.value, 0, 1); Ok(m.(quorate := Some(x)))
    else if e.kind == O_TIE then var x :- ValTie(e.value); Ok(m.(tie := Some(x)))
    else if e.kind == O_HEUR then var x :- ValRange(e.value, 1, 2); Ok(m.(heur := Some(x)))
    else if e.kind == O_KAP then var x :- ValRange(e.value, 0, 1); Ok(m.(kap := Some(x)))
    else Ok(m)
  }

  /** The decoder's switch: the effect of one option on the struct. */
  function Apply(m: Msg, e: Entry): Result<Msg, int> {
    if e.kind <= O_SUP_OPTS then ApplyIdentity(m, e)
    else if e.kind <= O_ALGORITHM then ApplyCapability(m, e)
    else if e.kind <= O_NODE_INFO then ApplyCluster(m, e)
    else ApplyDecision(m, e)
  }

  function Fold(m: Msg, b: Bytes): Result<Msg, int>
    decreases |b|
  {
    match NextOf(b)
    case End => Ok(m)
    case Bad(c) => Err(c)
    case Item(e, rest) => var m' :- Apply(m, e); Fold(m', rest)
  }

  function DecodeOf(frame: Bytes, max: nat): Result<Msg, int> {
    var h :- Check(frame, max);
    Fold(EmptyMsg(h.kind), frame[HEADER_LEN..HEADER_LEN + h.len])
  }

  // ---------- The decoder ----------

  method CheckHeader(hdr: Bytes, cap: nat) returns (rc: int, kind: u16, len: u32)
    requires |hdr| >= HEADER_LEN
    ensures rc == OK <==> kind <= TYPE_MAX && HEADER_LEN + len <= cap
    ensures kind > TYPE_MAX ==> rc == ERR_RANGE
    ensures kind <= TYPE_MAX && HEADER_LEN + len > cap ==> rc == ERR_NOMEM
    ensures kind == Get16(hdr[..2]) && len == Get32(hdr[2..6])
  {
    kind, len := Get16(hdr[..2]), Get32(hdr[2..6]);
    if kind > TYPE_MAX {
      return ERR_RANGE, kind, len;
    }
    if HEADER_LEN + len > cap {
      return ERR_NOMEM, kind, len;
    }
    return OK, kind, len;
  }

  method DecodeNodeInfo(v: Value) returns (r: Result<Node, int>)
    ensures r == DecodeNode(v)
  {
    var node := Node(0, None, None);
    var inner := new Iter(v);
    while true
      invariant inner.Valid() && fresh(inner)
      invariant FoldNode(Node(0, None, None), v) == FoldNode(node, inner.Rest())
      decreases |inner.Rest()|
    {
      var rc := inner.Advance();
      if rc < 0 {
        return Err(rc);
      }
      if rc == 0 {
        break;
      }
      var applied := ApplyNode(node, Entry(inner.kind, inner.val));
      if applied.Err? {
        return applied;
      }
      node := applied.value;
    }
    if node.nodeId == 0 {
      return Err(ERR_INVAL);
    }
    return Ok(node);
  }

  /** One turn of the decoder's switch. */
  method ApplyOption(m: Msg, e: Entry) returns (r: Result<Msg, int>)
    ensures r == Apply(m, e)
  {
    if e.kind != O_NODE_INFO {
      return Apply(m, e);
    }
    if |m.nodes| >= MAX_NODES {
      return Err(ERR_NOMEM);
    }
    var n := DecodeNodeInfo(e.value);
    if n.Err? {
      return Err(ERR_INVAL);
    }
    return Ok(m.(nodes := m.nodes + [n.value]));
  }

  method Decode(frame: Bytes, max: nat) returns (r: Result<Msg, int>)
    ensures r == DecodeOf(frame, max)
  {
    if |frame| < HEADER_LEN {
      return Err(ERR_TRUNC);
    }
    var rc, kind, plen := CheckHeader(frame, max);
    if rc != OK {
      return Err(rc);
    }
    if |frame| < HEADER_LEN + plen {
      return Err(ERR_TRUNC);
    }
    r := DecodeOptions(EmptyMsg(kind), frame[HEADER_LEN..HEADER_LEN + plen]);
  }

  method DecodeOptions(empty: Msg, payload: Bytes) returns (r: Result<Msg, int>)
    ensures r == Fold(empty, payload)
  {
    var m := empty;
    var it := new Iter(payload);
    while true
      invariant it.Valid() && fresh(it)
      invariant Fold(empty, payload) == Fold(m, it.Rest())
      decreases |it.Rest()|
    {
      var step := it.Advance();
      if step < 0 {
        return Err(step);
      }
      if step == 0 {
        break;
      }
      var applied := ApplyOption(m, Entry(it.kind, it.val));
      if applied.Err? {
        return applied;
      }
      m := applied.value;
    }
    return Ok(m);
  }
}
