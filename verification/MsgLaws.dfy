/** Message round trip: decoding what a builder wrote gives its arguments back. */
module MsgLaws {
  import opened Defs
  import opened Wire
  import opened Tlv
  import opened Msg
  import CodecLaws
  import JsMsg

  // ---------- The meaning of one option ----------

  /** The option is of the kind and shape the builders use. */
  predicate Shaped(o: Opt) {
    match o
    case U8(k, _) =>
      k == O_TLS || k == O_CERT_REQ || k == O_LIST_TYPE || k == O_VOTE || k == O_QUORATE || k == O_HEUR || k == O_KAP
    case U16(k, _) => k == O_ERROR || k == O_ALGORITHM
    case U32(k, _) => k == O_SEQ || k == O_MAX_REQ || k == O_MAX_REP || k == O_NODE_ID || k == O_HEARTBEAT
    case U64(k, _) => k == O_CONFIG
    case Str(k, _) => k == O_CLUSTER
    case Array(k, _) => k == O_SUP_MSGS || k == O_SUP_OPTS || k == O_SUP_ALGOS
    case RingId(k, _) => k == O_RING
    case TieBreaker(k, _) => k == O_TIE
    case NodeInfo(k, _) => k == O_NODE_INFO
  }

  /** The value is one the decoder allows for this option. */
  predicate InRange(o: Opt) {
    match o
    case U8(k, v) =>
      if k == O_TLS then v <= 2
      else if k == O_LIST_TYPE then v <= 3
      else if k == O_VOTE then 1 <= v <= 5
      else if k == O_QUORATE || k == O_KAP then v <= 1
      else if k == O_HEUR then 1 <= v <= 2
      else true
    case Array(k, a) => |a| <= if k == O_SUP_ALGOS then MAX_ALGO_LIST else 32
    case NodeInfo(_, n) => NodeInRange(n)
    case _ => true
  }

  predicate NodeInRange(n: Node) {
    n.state.Some? ==> 1 <= n.state.value <= 3
  }

  function Normal(t: Tie): Tie {
    if t.mode == TB_NODE_ID then t else t.(node := 0)
  }

  /** The field an option stands for, set to the argument it was built from. */
  function Meant(m: Msg, o: Opt): Msg {
    match o
    case U8(k, v) =>
      if k == O_TLS then m.(tls := Some(v))
      else if k == O_CERT_REQ then m.(certReq := Some(v))
      else if k == O_LIST_TYPE then m.(listType := Some(v))
      else if k == O_VOTE then m.(vote := Some(v))
      else if k == O_QUORATE then m.(quorate := Some(v))
      else if k == O_HEUR then m.(heur := Some(v))
      else m.(kap := Some(v))
    case U16(k, v) => if k == O_ERROR then m.(error := Some(v)) else m.(algorithm := Some(v))
    case U32(k, v) =>
      if k == O_SEQ then m.(sn := Some(v))
      else if k == O_MAX_REQ then m.(maxReq := Some(v))
      else if k == O_MAX_REP then m.(maxRep := Some(v))
      else if k == O_NODE_ID then m.(nodeId := Some(v))
      else m.(heartbeat := Some(v))
    case U64(_, v) => m.(config := Some(v))
    case Str(_, b) => m.(cluster := Some(b))
    case Array(k, a) =>
      if k == O_SUP_MSGS then m.(supMsgs := a)
      else if k == O_SUP_OPTS then m.(supOpts := a)
      else m.(supAlgos := a)
    case RingId(_, r) => m.(ring := Some(r))
    case TieBreaker(_, t) => m.(tie := Some(Normal(t)))
    case NodeInfo(_, n) => m.(nodes := m.nodes + [n])
  }

  predicate Accepts(m: Msg, o: Opt) {
    InRange(o) && (o.NodeInfo? ==> |m.nodes| < MAX_NODES)
  }

  lemma NodeStep(n: Node, e: Entry, n': Node, tail: Bytes)
    requires ApplyNode(n, e) == Ok(n')
    ensures FoldNode(n, EncodeEntry(e) + tail) == FoldNode(n', tail)
  {
    hide ApplyNode, EncodeEntry;
    NextOfEncoded(e, tail);
  }

  lemma StateRoundTrip(n: Node, s: Option<u8>)
    requires n.state == None
    ensures var b := if s.Some? then EncodeEntry(Entry(O_STATE, [s.value])) else [];
            FoldNode(n, b) == if s.Some? && !(1 <= s.value <= 3) then Err(ERR_RANGE) else Ok(n.(state := s))
  {
    if s.Some? {
      var e := Entry(O_STATE, [s.value]);
      NextOfEncoded(e, []);
      assert EncodeEntry(e) + [] == EncodeEntry(e);
    }
  }

  lemma NodeRoundTrip(n: Node)
    requires n.nodeId != 0
    ensures DecodeNode(NodeBytes(n)) == if NodeInRange(n) then Ok(n) else Err(ERR_RANGE)
  {
    hide EncodeEntry, FoldNode;
    var id := Entry(O_NODE_ID, Put32(n.nodeId));
    var dc: Bytes := if n.dc.Some? then EncodeEntry(Entry(O_DC, Put32(n.dc.value))) else [];
    var st: Bytes := if n.state.Some? then EncodeEntry(Entry(O_STATE, [n.state.value])) else [];
    var start, named := Node(0, None, None), Node(n.nodeId, None, None);
    RoundTrip32(n.nodeId, []);
    NodeStep(start, id, named, dc + st);
    assert NodeBytes(n) == EncodeEntry(id) + (dc + st);
    var full := named.(dc := n.dc);
    if n.dc.Some? {
      RoundTrip32(n.dc.value, []);
      NodeStep(named, Entry(O_DC, Put32(n.dc.value)), full, st);
    } else {
      assert dc + st == st;
    }
    StateRoundTrip(full, n.state);
  }

  lemma NumbersRoundTrip(o: Opt)
    ensures o.U16? ==> Get16(Put16(o.v16)) == o.v16
    ensures o.U32? ==> Get32(Put32(o.v32)) == o.v32
    ensures o.U64? ==> Get64(Put64(o.v64)) == o.v64
    ensures o.Array? ==> GetArray16(PutArray16(o.arr)) == o.arr
    ensures o.RingId? ==> ValRing(RingBytes(o.ring)) == Ok(o.ring)
    ensures o.TieBreaker? && TieMode(o.tie.mode) ==> ValTie(TieBytes(o.tie)) == Ok(Normal(o.tie))
  {
    match o {
      case U16(_, v) => RoundTrip16(v, []);
      case U32(_, v) => RoundTrip32(v, []);
      case U64(_, v) => RoundTrip64(v, []);
      case Array(_, a) => RoundTripArray16(a);
      case RingId(_, r) =>
        RoundTrip32(r.node, []);
        RoundTrip64(r.sn, []);
        assert RingBytes(r)[..4] == Put32(r.node) && RingBytes(r)[4..] == Put64(r.sn);
      case TieBreaker(_, t) =>
        RoundTrip32(t.node, []);
        assert TieBytes(t)[1..] == Put32(if t.mode == TB_NODE_ID then t.node else 0);
      case _ =>
    }
  }

  lemma ByteRoundTrip(m: Msg, o: Opt)
    requires o.U8? && Shaped(o)
    ensures Apply(m, Entry(o.kind, [o.v8])) == if InRange(o) then Ok(Meant(m, o)) else Err(ERR_RANGE)
  {}

  lemma NumberRoundTrip(m: Msg, o: Opt, v: Value)
    requires (o.U16? || o.U32? || o.U64?) && Shaped(o) && ValueOf(o) == Ok(v)
    ensures Apply(m, Entry(o.kind, v)) == Ok(Meant(m, o))
  {
    NumbersRoundTrip(o);
  }

  lemma ArrayRoundTrip(m: Msg, o: Opt, v: Value)
    requires o.Array? && Shaped(o) && ValueOf(o) == Ok(v)
    ensures Apply(m, Entry(o.kind, v)) == if InRange(o) then Ok(Meant(m, o)) else Err(ERR_INVAL)
  {
    NumbersRoundTrip(o);
  }

  lemma RecordRoundTrip(m: Msg, o: Opt, v: Value)
    requires (o.Str? || o.RingId? || o.TieBreaker?) && Shaped(o) && ValueOf(o) == Ok(v)
    ensures Apply(m, Entry(o.kind, v)) == Ok(Meant(m, o))
  {
    NumbersRoundTrip(o);
  }

  lemma NodeInfoRoundTrip(m: Msg, o: Opt, v: Value)
    requires o.NodeInfo? && Shaped(o) && ValueOf(o) == Ok(v)
    ensures Accepts(m, o) ==> Apply(m, Entry(o.kind, v)) == Ok(Meant(m, o))
    ensures !Accepts(m, o) ==> Apply(m, Entry(o.kind, v)).Err?
  {
    NodeRoundTrip(o.node);
  }

  /** Decoding one written option sets its field, or is refused when out of range. */
  lemma OptionRoundTrip(m: Msg, o: Opt, v: Value)
    requires Shaped(o) && ValueOf(o) == Ok(v)
    ensures Accepts(m, o) ==> Apply(m, Entry(o.kind, v)) == Ok(Meant(m, o))
    ensures !Accepts(m, o) ==> Apply(m, Entry(o.kind, v)).Err?
  {
    hide Apply, Meant, Shaped;
    match o {
      case U8(_, _) => ByteRoundTrip(m, o);
      case Array(_, _) => ArrayRoundTrip(m, o, v);
      case NodeInfo(_, _) => NodeInfoRoundTrip(m, o, v);
      case U16(_, _) => NumberRoundTrip(m, o, v);
      case U32(_, _) => NumberRoundTrip(m, o, v);
      case U64(_, _) => NumberRoundTrip(m, o, v);
      case _ => RecordRoundTrip(m, o, v);
    }
  }

  // ---------- A list of options ----------

  function MeantAll(m: Msg, os: seq<Opt>): Msg
    decreases |os|
  {
    if os == [] then m else MeantAll(Meant(m, os[0]), os[1..])
  }

  predicate AcceptsAll(m: Msg, os: seq<Opt>)
    decreases |os|
  {
    os == [] || (Accepts(m, os[0]) && AcceptsAll(Meant(m, os[0]), os[1..]))
  }

  lemma {:induction false} OptionsRoundTrip(m: Msg, os: seq<Opt>, room: int)
    requires forall o :: o in os ==> Shaped(o)
    requires Emit(os, room).Ok?
    ensures AcceptsAll(m, os) ==> Fold(m, Emit(os, room).value) == Ok(MeantAll(m, os))
    ensures !AcceptsAll(m, os) ==> Fold(m, Emit(os, room).value).Err?
    decreases |os|
  {
    hide Apply, Meant, Accepts, Shaped;
    if os != [] {
      var o, v := os[0], ValueOf(os[0]).value;
      NextOfEncoded(Entry(o.kind, v), Emit(os[1..], room - 4 - |v|).value);
      OptionRoundTrip(m, o, v);
      if Accepts(m, o) {
        OptionsRoundTrip(Meant(m, o), os[1..], room - 4 - |v|);
      }
    }
  }

  lemma {:induction false} Append(m: Msg, a: seq<Opt>, b: seq<Opt>)
    ensures MeantAll(m, a + b) == MeantAll(MeantAll(m, a), b)
    ensures AcceptsAll(m, a + b) <==> AcceptsAll(m, a) && AcceptsAll(MeantAll(m, a), b)
    decreases |a|
  {
    if a == [] {
      assert a + b == b;
    } else {
      assert (a + b)[0] == a[0] && (a + b)[1..] == a[1..] + b;
      Append(Meant(m, a[0]), a[1..], b);
    }
  }

  lemma One(m: Msg, o: Opt)
    ensures MeantAll(m, [o]) == Meant(m, o)
    ensures AcceptsAll(m, [o]) <==> Accepts(m, o)
  {
    hide Meant, Accepts;
    assert [o][1..] == [];
  }

  function If(present: bool, o: Opt): seq<Opt> {
    if present then [o] else []
  }

  lemma AtMostOne(m: Msg, present: bool, o: Opt)
    ensures MeantAll(m, If(present, o)) == if present then Meant(m, o) else m
    ensures AcceptsAll(m, If(present, o)) <==> (present ==> Accepts(m, o))
  {
    hide Meant, Accepts;
    if present { One(m, o); }
  }

  lemma Cons(m: Msg, all: seq<Opt>, o: Opt, os: seq<Opt>)
    requires all == [o] + os
    ensures MeantAll(m, all) == MeantAll(Meant(m, o), os)
    ensures AcceptsAll(m, all) <==> Accepts(m, o) && AcceptsAll(Meant(m, o), os)
  {
    hide Meant, Accepts;
    assert all[1..] == os;
  }

  lemma {:induction false} NodesMeant(m: Msg, nodes: seq<Node>)
    ensures MeantAll(m, NodeOpts(nodes)) == m.(nodes := m.nodes + nodes)
    ensures |m.nodes| <= MAX_NODES ==>
              (AcceptsAll(m, NodeOpts(nodes)) <==>
               |m.nodes| + |nodes| <= MAX_NODES && forall i :: 0 <= i < |nodes| ==> NodeInRange(nodes[i]))
  {
    if nodes == [] {
      assert m.nodes + nodes == m.nodes;
    } else {
      var front, last := nodes[..|nodes| - 1], nodes[|nodes| - 1];
      var m' := m.(nodes := m.nodes + front);
      NodesMeant(m, front);
      Append(m, NodeOpts(front), [NodeInfo(O_NODE_INFO, last)]);
      One(m', NodeInfo(O_NODE_INFO, last));
      assert m.nodes + front + [last] == m.nodes + nodes;
    }
  }

  // ---------- The arguments a builder is given, as a decoded message ----------

  function Arguments(r: Request): Msg {
    var m := EmptyMsg(KindOf(r));
    match r
    case Preinit(s, c) => m.(sn := s, cluster := Some(c))
    case PreinitReply(s, t, c) => m.(sn := s, tls := Some(t), certReq := Some(c))
    case Starttls(s) => m.(sn := s)
    case Init(s, a, id, hb, tie, ring) =>
      m.(sn := s, supMsgs := SUP_MSGS, supOpts := SUP_OPTS, nodeId := Some(id), algorithm := Some(a),
         heartbeat := Some(hb), tie := Some(Normal(tie)), ring := Some(ring))
    case InitReply(s, e, mq, mr, algos) =>
      m.(sn := s, error := Some(e), supMsgs := SUP_MSGS, supOpts := SUP_OPTS,
         maxReq := Some(mq), maxRep := Some(mr), supAlgos := algos)
    case ServerError(s, e) => m.(sn := s, error := Some(e))
    case EchoRequest(s) => m.(sn := s)
    case NodeList(n, lt, ring, cfg, q, h, nodes) =>
      m.(sn := Some(n), listType := Some(lt), ring := ring, config := cfg, quorate := q, nodes := nodes,
         heur := if h == Some(HEUR_UNDEFINED) then None else h)
    case NodeListReply(n, lt, ring, v) => m.(sn := Some(n), listType := Some(lt), ring := Some(ring), vote := Some(v))
    case AskForVote(n) => m.(sn := Some(n))
    case AskForVoteReply(n, v, ring) => m.(sn := Some(n), vote := Some(v), ring := Some(ring))
    case VoteInfo(n, v, ring) => m.(sn := Some(n), vote := Some(v), ring := Some(ring))
    case VoteInfoReply(n) => m.(sn := Some(n))
    case HeuristicsChange(n, h) => m.(sn := Some(n), heur := Some(h))
    case HeuristicsChangeReply(n, v, ring, h) =>
      m.(sn := Some(n), vote := Some(v), ring := Some(ring), heur := Some(h))
    case SetOption(s, hb, k) => m.(sn := s, heartbeat := hb, kap := k)
    case SetOptionReply(s, hb, k) => m.(sn := s, heartbeat := hb, kap := k)
  }

  predicate VoteOk(v: u8) { 1 <= v <= 5 }

  predicate HeurOk(h: u8) { 1 <= h <= 2 }

  predicate FlagOk(f: Option<u8>) { f.Some? ==> f.value <= 1 }

  /** The arguments lie in the ranges the protocol allows. */
  predicate Valid(r: Request) {
    match r
    case PreinitReply(_, t, _) => t <= 2
    case InitReply(_, _, _, _, algos) => |algos| <= MAX_ALGO_LIST
    case NodeList(_, lt, _, _, q, h, nodes) =>
      && lt <= 3 && FlagOk(q) && (h.Some? ==> h.value <= 2)
      && |nodes| <= MAX_NODES && forall i :: 0 <= i < |nodes| ==> NodeInRange(nodes[i])
    case NodeListReply(_, lt, _, v) => lt <= 3 && VoteOk(v)
    case AskForVoteReply(_, v, _) => VoteOk(v)
    case VoteInfo(_, v, _) => VoteOk(v)
    case HeuristicsChange(_, h) => HeurOk(h)
    case HeuristicsChangeReply(_, v, _, h) => VoteOk(v) && HeurOk(h)
    case SetOption(_, _, k) => FlagOk(k)
    case SetOptionReply(_, _, k) => FlagOk(k)
    case _ => true
  }

  lemma SeqMeant(m: Msg, sn: Option<u32>)
    requires m.sn == None
    ensures MeantAll(m, SeqOpt(sn)) == m.(sn := sn) && AcceptsAll(m, SeqOpt(sn))
  {
    if sn.Some? { One(m, U32(O_SEQ, sn.value)); }
  }

  lemma Opt8Meant(m: Msg, kind: u16, v: Option<u8>)
    ensures MeantAll(m, Opt8(kind, v)) == if v.Some? then Meant(m, U8(kind, v.value)) else m
    ensures AcceptsAll(m, Opt8(kind, v)) <==> (v.Some? ==> InRange(U8(kind, v.value)))
  {
    if v.Some? { One(m, U8(kind, v.value)); }
  }

  lemma SettingsMeant(m: Msg, sn: Option<u32>, hb: Option<u32>, kap: Option<u8>)
    requires m.sn == None && m.heartbeat == None && m.kap == None
    ensures MeantAll(m, SettingOpts(sn, hb, kap)) == m.(sn := sn, heartbeat := hb, kap := kap)
    ensures AcceptsAll(m, SettingOpts(sn, hb, kap)) <==> FlagOk(kap)
  {
    var h: seq<Opt> := if hb.Some? then [U32(O_HEARTBEAT, hb.value)] else [];
    SeqMeant(m, sn);
    var m1 := m.(sn := sn);
    if hb.Some? { One(m1, h[0]); }
    Append(m, SeqOpt(sn), h);
    var m2 := m1.(heartbeat := hb);
    Opt8Meant(m2, O_KAP, kap);
    Append(m, SeqOpt(sn) + h, Opt8(O_KAP, kap));
  }

  lemma InitMeant(r: Request)
    requires r.Init?
    ensures MeantAll(EmptyMsg(KindOf(r)), Options(r)) == Arguments(r)
    ensures AcceptsAll(EmptyMsg(KindOf(r)), Options(r))
  {
    hide MeantAll, AcceptsAll;
    var m := EmptyMsg(INIT);
    var o1, o2, o3 := Array(O_SUP_MSGS, SUP_MSGS), Array(O_SUP_OPTS, SUP_OPTS), U32(O_NODE_ID, r.nodeId);
    var o4, o5 := U16(O_ALGORITHM, r.algorithm), U32(O_HEARTBEAT, r.heartbeat);
    var o6, o7 := TieBreaker(O_TIE, r.tie), RingId(O_RING, r.ring);
    SeqMeant(m, r.sn);
    Append(m, SeqOpt(r.sn), [o1, o2, o3, o4, o5, o6, o7]);
    var m0 := m.(sn := r.sn);
    var m1 := m0.(supMsgs := SUP_MSGS);
    var m2 := m1.(supOpts := SUP_OPTS);
    var m3 := m2.(nodeId := Some(r.nodeId));
    var m4 := m3.(algorithm := Some(r.algorithm));
    var m5 := m4.(heartbeat := Some(r.heartbeat));
    var m6 := m5.(tie := Some(Normal(r.tie)));
    Cons(m0, [o1, o2, o3, o4, o5, o6, o7], o1, [o2, o3, o4, o5, o6, o7]);
    Cons(m1, [o2, o3, o4, o5, o6, o7], o2, [o3, o4, o5, o6, o7]);
    Cons(m2, [o3, o4, o5, o6, o7], o3, [o4, o5, o6, o7]);
    Cons(m3, [o4, o5, o6, o7], o4, [o5, o6, o7]);
    Cons(m4, [o5, o6, o7], o5, [o6, o7]);
    Cons(m5, [o6, o7], o6, [o7]);
    One(m6, o7);
  }

  lemma InitReplyMeant(r: Request)
    requires r.InitReply?
    ensures MeantAll(EmptyMsg(KindOf(r)), Options(r)) == Arguments(r)
    ensures AcceptsAll(EmptyMsg(KindOf(r)), Options(r)) <==> Valid(r)
  {
    hide MeantAll, AcceptsAll;
    var m := EmptyMsg(INIT_REPLY);
    var o1, o2, o3 := U16(O_ERROR, r.error), Array(O_SUP_MSGS, SUP_MSGS), Array(O_SUP_OPTS, SUP_OPTS);
    var o4, o5, o6 := U32(O_MAX_REQ, r.maxReq), U32(O_MAX_REP, r.maxRep), Array(O_SUP_ALGOS, r.algos);
    var m1 := m.(error := Some(r.error));
    var m2 := m1.(supMsgs := SUP_MSGS);
    var m3 := m2.(supOpts := SUP_OPTS);
    Cons(m, [o1, o2, o3], o1, [o2, o3]);
    Cons(m1, [o2, o3], o2, [o3]);
    One(m2, o3);
    SeqMeant(m3, r.sn);
    Append(m, [o1, o2, o3], SeqOpt(r.sn));
    var m4 := m3.(sn := r.sn);
    var m5 := m4.(maxReq := Some(r.maxReq));
    Append(m, [o1, o2, o3] + SeqOpt(r.sn), [o4, o5, o6]);
    Cons(m4, [o4, o5, o6], o4, [o5, o6]);
    Cons(m5, [o5, o6], o5, [o6]);
    One(m5.(maxRep := Some(r.maxRep)), o6);
  }

  function ListHead(r: Request): seq<Opt>
    requires r.NodeList?
  {
    [U32(O_SEQ, r.n), U8(O_LIST_TYPE, r.listType)]
    + (if r.ringOpt.Some? then [RingId(O_RING, r.ringOpt.value)] else [])
    + (if r.config.Some? then [U64(O_CONFIG, r.config.value)] else [])
    + Opt8(O_QUORATE, r.quorate)
  }

  lemma ListHeadMeant(m: Msg, r: Request) returns (m4: Msg)
    requires r.NodeList? && m == EmptyMsg(NODE_LIST)
    ensures m4 == m.(sn := Some(r.n), listType := Some(r.listType), ring := r.ringOpt,
                        config := r.config, quorate := r.quorate)
    ensures MeantAll(m, ListHead(r)) == m4
    ensures AcceptsAll(m, ListHead(r)) <==> r.listType <= 3 && FlagOk(r.quorate)
  {
    hide MeantAll, AcceptsAll;
    var sn, lt := U32(O_SEQ, r.n), U8(O_LIST_TYPE, r.listType);
    var ring := RingId(O_RING, if r.ringOpt.Some? then r.ringOpt.value else Ring(0, 0));
    var cfg := U64(O_CONFIG, if r.config.Some? then r.config.value else 0);
    var m0 := m.(sn := Some(r.n));
    var m1 := m0.(listType := Some(r.listType));
    Cons(m, [sn, lt], sn, [lt]);
    One(m0, lt);
    AtMostOne(m1, r.ringOpt.Some?, ring);
    var m2 := m1.(ring := r.ringOpt);
    Append(m, [sn, lt], If(r.ringOpt.Some?, ring));
    AtMostOne(m2, r.config.Some?, cfg);
    var m3 := m2.(config := r.config);
    Append(m, [sn, lt] + If(r.ringOpt.Some?, ring), If(r.config.Some?, cfg));
    Opt8Meant(m3, O_QUORATE, r.quorate);
    m4 := m3.(quorate := r.quorate);
    Append(m, [sn, lt] + If(r.ringOpt.Some?, ring) + If(r.config.Some?, cfg), Opt8(O_QUORATE, r.quorate));
  }

  lemma NodeListMeant(r: Request)
    requires r.NodeList?
    ensures MeantAll(EmptyMsg(KindOf(r)), Options(r)) == Arguments(r)
    ensures AcceptsAll(EmptyMsg(KindOf(r)), Options(r)) <==> Valid(r)
  {
    hide MeantAll, AcceptsAll, NodeOpts;
    var m := EmptyMsg(NODE_LIST);
    var m4 := ListHeadMeant(m, r);
    NodesMeant(m4, r.nodes);
    assert [] + r.nodes == r.nodes;
    Append(m, ListHead(r), NodeOpts(r.nodes));
    var given := r.heurOpt.Some? && r.heurOpt.value != HEUR_UNDEFINED;
    var heur := U8(O_HEUR, if given then r.heurOpt.value else 0);
    AtMostOne(m4.(nodes := r.nodes), given, heur);
    Append(m, ListHead(r) + NodeOpts(r.nodes), If(given, heur));
  }

  lemma SmallMeant(r: Request)
    requires r.Preinit? || r.PreinitReply? || r.Starttls? || r.ServerError? || r.EchoRequest?
             || r.SetOption? || r.SetOptionReply?
    ensures MeantAll(EmptyMsg(KindOf(r)), Options(r)) == Arguments(r)
    ensures AcceptsAll(EmptyMsg(KindOf(r)), Options(r)) <==> Valid(r)
  {
    hide MeantAll, AcceptsAll;
    var m := EmptyMsg(KindOf(r));
    match r {
      case Preinit(s, c) =>
        SeqMeant(m, s);
        Append(m, SeqOpt(s), [Str(O_CLUSTER, c)]);
        One(m.(sn := s), Str(O_CLUSTER, c));
      case PreinitReply(s, t, c) =>
        SeqMeant(m, s);
        Append(m, SeqOpt(s), [U8(O_TLS, t), U8(O_CERT_REQ, c)]);
        Cons(m.(sn := s), [U8(O_TLS, t), U8(O_CERT_REQ, c)], U8(O_TLS, t), [U8(O_CERT_REQ, c)]);
        One(m.(sn := s, tls := Some(t)), U8(O_CERT_REQ, c));
      case Starttls(s) => SeqMeant(m, s);
      case ServerError(s, e) =>
        SeqMeant(m, s);
        Append(m, SeqOpt(s), [U16(O_ERROR, e)]);
        One(m.(sn := s), U16(O_ERROR, e));
      case EchoRequest(s) => SeqMeant(m, s);
      case SetOption(s, hb, k) => SettingsMeant(m, s, hb, k);
      case SetOptionReply(s, hb, k) => SettingsMeant(m, s, hb, k);
    }
  }

  lemma ReplyMeant(r: Request)
    requires r.NodeListReply? || r.AskForVote? || r.AskForVoteReply? || r.VoteInfo? || r.VoteInfoReply?
             || r.HeuristicsChange? || r.HeuristicsChangeReply?
    ensures MeantAll(EmptyMsg(KindOf(r)), Options(r)) == Arguments(r)
    ensures AcceptsAll(EmptyMsg(KindOf(r)), Options(r)) <==> Valid(r)
  {
    hide MeantAll, AcceptsAll;
    var m, os := EmptyMsg(KindOf(r)), Options(r);
    if |os| == 1 {
      One(m, U32(O_SEQ, r.n));
    } else {
      var m0 := m.(sn := Some(r.n));
      Cons(m, os, os[0], os[1..]);
      if |os| == 2 {
        assert os[1..] == [os[1]];
        One(m0, os[1]);
      } else {
        var m1 := Meant(m0, os[1]);
        Cons(m0, os[1..], os[1], os[2..]);
        if |os| == 3 {
          assert os[2..] == [os[2]];
          One(m1, os[2]);
        } else {
          Cons(m1, os[2..], os[2], os[3..]);
          assert os[3..] == [os[3]];
          One(Meant(m1, os[2]), os[3]);
        }
      }
    }
  }

  lemma ListShaped(r: Request)
    requires r.NodeList?
    ensures forall o :: o in Options(r) ==> Shaped(o)
  {
    hide NodeOpts;
    assert forall o :: o in ListHead(r) ==> Shaped(o);
    assert forall o :: o in NodeOpts(r.nodes) ==> Shaped(o);
  }

  lemma HandshakeShaped(r: Request)
    requires r.Init? || r.InitReply?
    ensures forall o :: o in Options(r) ==> Shaped(o)
  {}

  lemma OptionsShaped(r: Request)
    ensures forall o :: o in Options(r) ==> Shaped(o)
  {
    if r.NodeList? {
      ListShaped(r);
    } else if r.Init? || r.InitReply? {
      HandshakeShaped(r);
    }
  }

  /** Whenever a builder succeeds within the buffer, the decoder accepts the frame exactly
      when the arguments are in range, and then returns exactly those arguments. */
  lemma RoundTrip(r: Request, cap: nat, max: nat)
    requires cap < 0x1_0000_0000 && Encode(r, cap).Ok? && |Encode(r, cap).value| <= max
    ensures DecodeOf(Encode(r, cap).value, max).Ok? <==> Valid(r)
    ensures Valid(r) ==> DecodeOf(Encode(r, cap).value, max) == Ok(Arguments(r))
    ensures Get32(Encode(r, cap).value[2..6]) == |Encode(r, cap).value| - HEADER_LEN
  {
    hide Emit, Options, Arguments, Fold, MeantAll, AcceptsAll, Shaped;
    var os, frame := Options(r), Encode(r, cap).value;
    var p := Emit(os, cap - HEADER_LEN).value;
    EmitFits(os, cap - HEADER_LEN);
    assert frame == Frame(KindOf(r), p);
    assert frame[..2] == Put16(KindOf(r)) && frame[2..6] == Put32(|p|) && frame[6..6 + |p|] == p;
    RoundTrip16(KindOf(r), []);
    RoundTrip32(|p|, []);
    OptionsShaped(r);
    OptionsRoundTrip(EmptyMsg(KindOf(r)), os, cap - HEADER_LEN);
    match r {
      case Init(_, _, _, _, _, _) => InitMeant(r);
      case InitReply(_, _, _, _, _) => InitReplyMeant(r);
      case NodeList(_, _, _, _, _, _, _) => NodeListMeant(r);
      case Preinit(_, _) => SmallMeant(r);
      case PreinitReply(_, _, _) => SmallMeant(r);
      case Starttls(_) => SmallMeant(r);
      case ServerError(_, _) => SmallMeant(r);
      case EchoRequest(_) => SmallMeant(r);
      case SetOption(_, _, _) => SmallMeant(r);
      case SetOptionReply(_, _, _) => SmallMeant(r);
      case _ => ReplyMeant(r);
    }
  }

  /** What the C builders write, the JavaScript decoder reads back: the same arguments. */
  lemma CrossRoundTrip(r: Request, cap: nat, max: nat)
    requires cap < 0x1_0000_0000 && Encode(r, cap).Ok? && |Encode(r, cap).value| <= max && Valid(r)
    ensures JsMsg.DecodeMessageOf(Encode(r, cap).value, max).Ok?
    ensures CodecLaws.Agrees(Arguments(r), JsMsg.DecodeMessageOf(Encode(r, cap).value, max).value)
  {
    hide Encode, DecodeOf, JsMsg.DecodeMessageOf, Arguments, CodecLaws.Agrees;
    RoundTrip(r, cap, max);
    CodecLaws.DecodersAgree(Encode(r, cap).value, max);
  }
}
