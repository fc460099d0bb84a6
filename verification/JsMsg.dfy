/** The second decoder (host/src/msg.js, host/src/tlv.js): split the whole option stream
    first, then fill an object that holds only the fields that were present. */
module JsMsg {
  import opened Defs
  import opened Wire
  import opened Tlv
  import opened Msg

  datatype Thrown = TlvError | MsgError

  type Js<T> = Result<T, Thrown>

  datatype JNode = JNode(nodeId: u32, dataCenterId: u32, nodeState: u8)

  datatype JMsg = JMsg(
    kind: u16, nodes: seq<JNode>,
    sn: Option<u32>, clusterName: Option<Bytes>, tlsSupported: Option<u8>, tlsClientCertRequired: Option<u8>,
    supportedMessages: Option<seq<u16>>, supportedOptions: Option<seq<u16>>,
    supportedAlgorithms: Option<seq<u16>>,
    errorCode: Option<u16>, maxRequest: Option<u32>, maxReply: Option<u32>,
    nodeId: Option<u32>, algorithm: Option<u16>, heartbeatInterval: Option<u32>,
    ringId: Option<Ring>, configVersion: Option<u64>, dataCenterId: Option<u32>, nodeState: Option<u8>,
    listType: Option<u8>, vote: Option<u8>, quorate: Option<u8>, tieBreaker: Option<Tie>,
    heuristics: Option<u8>, kapTb: Option<u8>)

  function NewMessage(kind: u16): JMsg {
    JMsg(kind, [], None, None, None, None, None, None, None, None, None, None, None, None, None, None,
         None, None, None, None, None, None, None, None, None)
  }

  // ---------- Specification: typed decoders ----------

  function ExpectLen(v: Value, n: nat): (r: Js<()>)
    ensures r.Ok? <==> |v| == n
  {
    if |v| != n then Err(TlvError) else Ok(())
  }

  function DecodeU8(v: Value): Js<u8> {
    var _ :- ExpectLen(v, 1); Ok(v[0])
  }

  function DecodeU16(v: Value): Js<u16> {
    var _ :- ExpectLen(v, 2); Ok(Get16(v))
  }

  function DecodeU32(v: Value): Js<u32> {
    var _ :- ExpectLen(v, 4); Ok(Get32(v))
  }

  function DecodeU64(v: Value): Js<u64> {
    var _ :- ExpectLen(v, 8); Ok(Get64(v))
  }

  function DecodeArray(v: Value): Js<seq<u16>> {
    if |v| % 2 != 0 then Err(TlvError) else Ok(GetArray16(v))
  }

  function DecodeRingId(v: Value): Js<Ring> {
    var _ :- ExpectLen(v, 12); Ok(Ring(Get32(v[0..4]), Get64(v[4..12])))
  }

  function DecodeTieBreaker(v: Value): Js<Tie> {
    var _ :- ExpectLen(v, 5);
    if v[0] !in {TB_LOWEST, TB_HIGHEST, TB_NODE_ID} then Err(TlvError)
    else Ok(Tie(v[0], if v[0] == TB_NODE_ID then Get32(v[1..5]) else 0))
  }

  function DecodeOneOf(v: Value, allowed: set<u8>): Js<u8> {
    var x :- DecodeU8(v);
    if x !in allowed then Err(TlvError) else Ok(x)
  }

  // ---------- Specification: node infos and messages ----------

  function FillNode(n: JNode, e: Entry): Js<JNode> {
    if e.kind == O_NODE_ID then var x :- DecodeU32(e.value); Ok(n.(nodeId := x))
    else if e.kind == O_DC then var x :- DecodeU32(e.value); Ok(n.(dataCenterId := x))
    else if e.kind == O_STATE then var x :- DecodeOneOf(e.value, {1, 2, 3}); Ok(n.(nodeState := x))
    else Ok(n)
  }

  function FillNodeAll(n: JNode, es: seq<Entry>): Js<JNode>
    decreases |es|
  {
    if es == [] then Ok(n) else var n' :- FillNode(n, es[0]); FillNodeAll(n', es[1..])
  }

  function Split(b: Bytes): Js<seq<Entry>> {
    match Parse(b) case Ok(es) => Ok(es) case Err(_) => Err(TlvError)
  }

  function NodeInfoOf(v: Value): Js<JNode> {
    var es :- Split(v);
    var n :- FillNodeAll(JNode(0, 0, 0), es);
    if n.nodeId == 0 then Err(TlvError) else Ok(n)
  }

  /** Options 0-5. */
  function FillIdentity(m: JMsg, e: Entry): Js<JMsg> {
    if e.kind == O_SEQ then var x :- DecodeU32(e.value); Ok(m.(sn := Some(x)))
    else if e.kind == O_CLUSTER then Ok(m.(clusterName := Some(e.value)))
    else if e.kind == O_TLS then var x :- DecodeOneOf(e.value, {0, 1, 2}); Ok(m.(tlsSupported := Some(x)))
    else if e.kind == O_CERT_REQ then var x :- DecodeU8(e.value); Ok(m.(tlsClientCertRequired := Some(x)))
    else if e.kind == O_SUP_MSGS then var x :- DecodeArray(e.value); Ok(m.(supportedMessages := Some(x)))
    else if e.kind == O_SUP_OPTS then var x :- DecodeArray(e.value); Ok(m.(supportedOptions := Some(x)))
    else Ok(m)
  }

  /** Options 6-11. */
  function FillCapability(m: JMsg, e: Entry): Js<JMsg> {
    if e.kind == O_ERROR then var x :- DecodeU16(e.value); Ok(m.(errorCode := Some(x)))
    else if e.kind == O_MAX_REQ then var x :- DecodeU32(e.value); Ok(m.(maxRequest := Some(x)))
    else if e.kind == O_MAX_REP then var x :- DecodeU32(e.value); Ok(m.(maxReply := Some(x)))
    else if e.kind == O_NODE_ID then var x :- DecodeU32(e.value); Ok(m.(nodeId := Some(x)))
    else if e.kind == O_SUP_ALGOS then var x :- DecodeArray(e.value); Ok(m.(supportedAlgorithms := Some(x)))
    else if e.kind == O_ALGORITHM then var x :- DecodeU16(e.value); Ok(m.(algorithm := Some(x)))
    else Ok(m)
  }

  /** Options 12-17. */
  function FillCluster(m: JMsg, e: Entry): Js<JMsg> {
    if e.kind == O_HEARTBEAT then var x :- DecodeU32(e.value); Ok(m.(heartbeatInterval := Some(x)))
    else if e.kind == O_RING then var x :- DecodeRingId(e.value); Ok(m.(ringId := Some(x)))
    else if e.kind == O_CONFIG then var x :- DecodeU64(e.value); Ok(m.(configVersion := Some(x)))
    else if e.kind == O_DC then var x :- DecodeU32(e.value); Ok(m.(dataCenterId := Some(x)))
    else if e.kind == O_STATE then var x :- DecodeOneOf(e.value, {1, 2, 3}); Ok(m.(nodeState := Some(x)))
    else if e.kind == O_NODE_INFO then var n :- NodeInfoOf(e.value); Ok(m.(nodes := m.nodes + [n]))
    else Ok(m)
  }

  /** Options 18-23. */
  function FillDecision(m: JMsg, e: Entry): Js<JMsg> {
    if e.kind == O_LIST_TYPE then var x :- DecodeOneOf(e.value, {0, 1, 2, 3}); Ok(m.(listType := Some(x)))
    else if e.kind == O_VOTE then var x :- DecodeOneOf(e.value, {1, 2, 3, 4, 5}); Ok(m.(vote := Some(x)))
    else if e.kind == O_QUORATE then var x :- DecodeOneOf(e.value, {0, 1}); Ok(m.(quorate := Some(x)))
    else if e.kind == O_TIE then var x :- DecodeTieBreaker(e.value); Ok(m.(tieBreaker := Some(x)))
    else if e.kind == O_HEUR then var x :- DecodeOneOf(e.value, {1, 2}); Ok(m.(heuristics := Some(x)))
    else if e.kind == O_KAP then var x :- DecodeOneOf(e.value, {0, 1}); Ok(m.(kapTb := Some(x)))
    else Ok(m)
  }

  /** The switch of `decodeMessage`: the effect of one entry on the object. */
  function Fill(m: JMsg, e: Entry): Js<JMsg> {
    if e.kind <= O_SUP_OPTS then FillIdentity(m, e)
    else if e.kind <= O_ALGORITHM then FillCapability(m, e)
    else if e.kind <= O_NODE_INFO then FillCluster(m, e)
    else FillDecision(m, e)
  }

  function FillAll(m: JMsg, es: seq<Entry>): Js<JMsg>
    decreases |es|
  {
    if es == [] then Ok(m) else var m' :- Fill(m, es[0]); FillAll(m', es[1..])
  }

  datatype SplitFrame = SplitFrame(kind: u16, payload: Bytes)

  function SplitFrameOf(buf: Bytes, maxSize: nat): Js<SplitFrame> {
    if |buf| < HEADER_LEN then Err(MsgError)
    else
      var kind, len := Get16(buf[0..2]), Get32(buf[2..6]);
      if kind > TYPE_MAX || HEADER_LEN + len > maxSize || |buf| < HEADER_LEN + len then Err(MsgError)
      else Ok(SplitFrame(kind, buf[HEADER_LEN..HEADER_LEN + len]))
  }

  function DecodeMessageOf(buf: Bytes, maxSize: nat): Js<JMsg> {
    var s :- SplitFrameOf(buf, maxSize);
    var es :- Split(s.payload);
    FillAll(NewMessage(s.kind), es)
  }

  // ---------- The code ----------

  method DecodeU16Array(v: Value) returns (r: Js<seq<u16>>)
    ensures r == DecodeArray(v)
  {
    if |v| % 2 != 0 {
      return Err(TlvError);
    }
    var out: seq<u16> := [];
    var i := 0;
    while i < |v|
      invariant 0 <= i <= |v| && i % 2 == 0 && out == GetArray16(v)[..i / 2]
    {
      var k := i / 2;
      assert GetArray16(v)[k] == Get16([v[2 * k], v[2 * k + 1]]);
      assert GetArray16(v)[..k + 1] == GetArray16(v)[..k] + [GetArray16(v)[k]];
      out := out + [Get16([v[i], v[i + 1]])];
      i := i + 2;
    }
    assert out == GetArray16(v);
    return Ok(out);
  }

  method DecodeNodeInfo(v: Value) returns (r: Js<JNode>)
    ensures r == NodeInfoOf(v)
  {
    var inner := DecodeTlvs(v);
    if inner.Err? {
      return Err(TlvError);
    }
    var info := JNode(0, 0, 0);
    var es := inner.value;
    var i := 0;
    assert es[0..] == es;
    while i < |es|
      invariant 0 <= i <= |es|
      invariant FillNodeAll(JNode(0, 0, 0), es) == FillNodeAll(info, es[i..])
    {
      var filled := FillNode(info, es[i]);
      if filled.Err? {
        return filled;
      }
      info := filled.value;
      assert es[i..][1..] == es[i + 1..];
      i := i + 1;
    }
    if info.nodeId == 0 {
      return Err(TlvError);
    }
    return Ok(info);
  }

  method FillEntry(m: JMsg, e: Entry) returns (r: Js<JMsg>)
    ensures r == Fill(m, e)
  {
    if e.kind == O_NODE_INFO {
      var n := DecodeNodeInfo(e.value);
      return if n.Err? then Err(n.error) else Ok(m.(nodes := m.nodes + [n.value]));
    }
    if e.kind == O_SUP_MSGS || e.kind == O_SUP_OPTS || e.kind == O_SUP_ALGOS {
      var a := DecodeU16Array(e.value);
      if a.Err? {
        return Err(a.error);
      }
      return Ok(if e.kind == O_SUP_MSGS then m.(supportedMessages := Some(a.value))
                else if e.kind == O_SUP_OPTS then m.(supportedOptions := Some(a.value))
                else m.(supportedAlgorithms := Some(a.value)));
    }
    return Fill(m, e);
  }

  method DecodeMessage(buf: Bytes, maxSize: nat) returns (r: Js<JMsg>)
    ensures r == DecodeMessageOf(buf, maxSize)
  {
    var s := SplitFrameOf(buf, maxSize);
    if s.Err? {
      return Err(s.error);
    }
    var entries := DecodeTlvs(s.value.payload);
    if entries.Err? {
      return Err(TlvError);
    }
    r := FillMessage(NewMessage(s.value.kind), entries.value);
  }

  method FillMessage(empty: JMsg, es: seq<Entry>) returns (r: Js<JMsg>)
    ensures r == FillAll(empty, es)
  {
    var m := empty;
    var i := 0;
    assert es[0..] == es;
    while i < |es|
      invariant 0 <= i <= |es|
      invariant FillAll(empty, es) == FillAll(m, es[i..])
    {
      var filled := FillEntry(m, es[i]);
      if filled.Err? {
        return filled;
      }
      m := filled.value;
      assert es[i..][1..] == es[i + 1..];
      i := i + 1;
    }
    return Ok(m);
  }
}
