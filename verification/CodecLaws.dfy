/** The two codecs agree: the C decoder accepts exactly what the JavaScript decoder accepts
    within the C capacities, with the same field values. */
module CodecLaws {
  import opened Defs
  import opened Wire
  import opened Tlv
  import opened Msg
  import opened JsMsg

  // ---------- Agreement of decoded values ----------

  ghost predicate NodeAgrees(n: Node, j: JNode) {
    && n.nodeId == j.nodeId
    && j.dataCenterId == (if n.dc.Some? then n.dc.value else 0)
    && j.nodeState == (if n.state.Some? then n.state.value else 0)
  }

  /** An absent array option is an empty array in C and an absent field in JavaScript. */
  function ArrayOf(j: Option<seq<u16>>): seq<u16> {
    if j.Some? then j.value else []
  }

  /** The C struct with the fields of a JavaScript object and the nodes `ns`;
      the object's `nodeState` has no counterpart. */
  function StructOf(j: JMsg, ns: seq<Node>): Msg {
    Msg(j.kind, j.sn, j.clusterName, j.tlsSupported, j.tlsClientCertRequired,
        j.nodeId, j.algorithm, j.heartbeatInterval, j.ringId, j.configVersion, j.dataCenterId,
        j.listType, j.vote, j.quorate, j.tieBreaker, j.heuristics, j.kapTb,
        j.errorCode, j.maxRequest, j.maxReply,
        ArrayOf(j.supportedMessages), ArrayOf(j.supportedOptions), ArrayOf(j.supportedAlgorithms), ns)
  }

  ghost predicate NodesAgree(ns: seq<Node>, js: seq<JNode>) {
    |ns| == |js| && forall i :: 0 <= i < |ns| ==> NodeAgrees(ns[i], js[i])
  }

  ghost predicate Agrees(m: Msg, j: JMsg) {
    m == StructOf(j, m.nodes) && NodesAgree(m.nodes, j.nodes)
  }

  // ---------- The C capacities ----------

  predicate ArrayFits(e: Entry) {
    && (e.kind == O_SUP_MSGS ==> |e.value| / 2 <= MAX_MSG_LIST)
    && (e.kind == O_SUP_OPTS ==> |e.value| / 2 <= MAX_OPT_LIST)
    && (e.kind == O_SUP_ALGOS ==> |e.value| / 2 <= MAX_ALGO_LIST)
  }

  function NodeInfos(es: seq<Entry>): nat {
    if es == [] then 0 else (if es[0].kind == O_NODE_INFO then 1 else 0) + NodeInfos(es[1..])
  }

  predicate Fits(es: seq<Entry>, room: int) {
    (forall i :: 0 <= i < |es| ==> ArrayFits(es[i])) && NodeInfos(es) <= room
  }

  /** At most 32 node infos, and no array option beyond 32 messages, 32 options, 8 algorithms. */
  predicate WithinCaps(frame: Bytes) {
    |frame| >= HEADER_LEN && HEADER_LEN + Get32(frame[2..6]) <= |frame| ==>
      match Parse(frame[HEADER_LEN..HEADER_LEN + Get32(frame[2..6])])
      case Err(_) => true
      case Ok(es) => Fits(es, MAX_NODES)
  }

  // ---------- Node infos ----------

  lemma NodeStep(n: Node, j: JNode, e: Entry)
    requires NodeAgrees(n, j)
    ensures ApplyNode(n, e).Ok? <==> FillNode(j, e).Ok?
    ensures ApplyNode(n, e).Ok? ==> NodeAgrees(ApplyNode(n, e).value, FillNode(j, e).value)
  {}

  lemma {:induction false} NodesFoldAlike(n: Node, j: JNode, b: Bytes)
    requires NodeAgrees(n, j)
    ensures FoldNode(n, b).Ok? <==> Parse(b).Ok? && FillNodeAll(j, Parse(b).value).Ok?
    ensures FoldNode(n, b).Ok? ==> NodeAgrees(FoldNode(n, b).value, FillNodeAll(j, Parse(b).value).value)
    decreases |b|
  {
    if NextOf(b).Item? {
      var e, rest := NextOf(b).entry, NextOf(b).rest;
      NodeStep(n, j, e);
      if ApplyNode(n, e).Ok? {
        NodesFoldAlike(ApplyNode(n, e).value, FillNode(j, e).value, rest);
      }
      if Parse(rest).Ok? {
        assert ([e] + Parse(rest).value)[1..] == Parse(rest).value;
      }
    }
  }

  lemma NodeInfosAlike(v: Value)
    ensures DecodeNode(v).Ok? <==> NodeInfoOf(v).Ok?
    ensures DecodeNode(v).Ok? ==> NodeAgrees(DecodeNode(v).value, NodeInfoOf(v).value)
  {
    NodesFoldAlike(Node(0, None, None), JNode(0, 0, 0), v);
  }

  // ---------- Messages ----------

  lemma IdentityStep(m: Msg, j: JMsg, e: Entry)
    requires m == StructOf(j, m.nodes) && e.kind <= O_SUP_OPTS
    ensures ApplyIdentity(m, e).Ok? <==> FillIdentity(j, e).Ok? && ArrayFits(e)
    ensures ApplyIdentity(m, e).Ok? ==>
              ApplyIdentity(m, e).value == StructOf(FillIdentity(j, e).value, m.nodes)
              && FillIdentity(j, e).value.nodes == j.nodes
  {}

  lemma CapabilityStep(m: Msg, j: JMsg, e: Entry)
    requires m == StructOf(j, m.nodes) && O_SUP_OPTS < e.kind <= O_ALGORITHM
    ensures ApplyCapability(m, e).Ok? <==> FillCapability(j, e).Ok? && ArrayFits(e)
    ensures ApplyCapability(m, e).Ok? ==>
              ApplyCapability(m, e).value == StructOf(FillCapability(j, e).value, m.nodes)
              && FillCapability(j, e).value.nodes == j.nodes
  {}

  lemma ClusterStep(m: Msg, j: JMsg, e: Entry)
    requires m == StructOf(j, m.nodes) && O_ALGORITHM < e.kind < O_NODE_INFO
    ensures ApplyCluster(m, e).Ok? <==> FillCluster(j, e).Ok?
    ensures ApplyCluster(m, e).Ok? ==>
              ApplyCluster(m, e).value == StructOf(FillCluster(j, e).value, m.nodes)
              && FillCluster(j, e).value.nodes == j.nodes
  {
    if |e.value| == 12 {
      assert e.value[4..12] == e.value[4..] && e.value[0..4] == e.value[..4];
    }
  }

  lemma DecisionStep(m: Msg, j: JMsg, e: Entry)
    requires m == StructOf(j, m.nodes) && e.kind > O_NODE_INFO
    ensures ApplyDecision(m, e).Ok? <==> FillDecision(j, e).Ok?
    ensures ApplyDecision(m, e).Ok? ==>
              ApplyDecision(m, e).value == StructOf(FillDecision(j, e).value, m.nodes)
              && FillDecision(j, e).value.nodes == j.nodes
  {
    if |e.value| == 5 {
      assert e.value[1..5] == e.value[1..];
    }
  }

  lemma OptionStep(m: Msg, j: JMsg, e: Entry)
    requires Agrees(m, j) && e.kind != O_NODE_INFO
    ensures Apply(m, e).Ok? <==> Fill(j, e).Ok? && ArrayFits(e)
    ensures Apply(m, e).Ok? ==>
              Agrees(Apply(m, e).value, Fill(j, e).value) && Apply(m, e).value.nodes == m.nodes
  {
    if e.kind <= O_SUP_OPTS {
      IdentityStep(m, j, e);
    } else if e.kind <= O_ALGORITHM {
      CapabilityStep(m, j, e);
    } else if e.kind <= O_NODE_INFO {
      ClusterStep(m, j, e);
    } else {
      DecisionStep(m, j, e);
    }
  }

  lemma NodeInfoStep(m: Msg, j: JMsg, e: Entry)
    requires Agrees(m, j) && e.kind == O_NODE_INFO
    ensures Apply(m, e).Ok? <==> Fill(j, e).Ok? && |m.nodes| < MAX_NODES
    ensures Apply(m, e).Ok? ==>
              Agrees(Apply(m, e).value, Fill(j, e).value) && |Apply(m, e).value.nodes| == |m.nodes| + 1
  {
    NodeInfosAlike(e.value);
  }

  lemma {:induction false} MessagesFoldAlike(m: Msg, j: JMsg, b: Bytes)
    requires Agrees(m, j) && |m.nodes| <= MAX_NODES
    ensures Fold(m, b).Ok? <==>
            Parse(b).Ok? && FillAll(j, Parse(b).value).Ok? && Fits(Parse(b).value, MAX_NODES - |m.nodes|)
    ensures Fold(m, b).Ok? ==> Agrees(Fold(m, b).value, FillAll(j, Parse(b).value).value)
    decreases |b|
  {
    if NextOf(b).Item? {
      var e, rest := NextOf(b).entry, NextOf(b).rest;
      if e.kind == O_NODE_INFO { NodeInfoStep(m, j, e); } else { OptionStep(m, j, e); }
      if Apply(m, e).Ok? {
        MessagesFoldAlike(Apply(m, e).value, Fill(j, e).value, rest);
      }
    }
  }

  /** For every byte string and size limit: the C decoder accepts exactly when the
      JavaScript decoder accepts and the frame is within the C capacities, and then
      both decode the same values. */
  lemma DecodersAgree(frame: Bytes, max: nat)
    ensures DecodeOf(frame, max).Ok? <==> DecodeMessageOf(frame, max).Ok? && WithinCaps(frame)
    ensures DecodeOf(frame, max).Ok? ==> Agrees(DecodeOf(frame, max).value, DecodeMessageOf(frame, max).value)
  {
    if Check(frame, max).Ok? {
      var h := Check(frame, max).value;
      assert frame[0..2] == frame[..2];
      MessagesFoldAlike(EmptyMsg(h.kind), NewMessage(h.kind), frame[HEADER_LEN..HEADER_LEN + h.len]);
    }
  }
}
