/** Client sessions (firmware/qdevice/server.c): the handshake, the dispatch of one decoded
    frame and the end of a session. One call is one turn under the mutex. */
module Turns {
  import opened Defs
  import opened Wire
  import opened Tlv
  import opened FFSplit
  import opened Push
  import opened Msg
  import Lms

  const RX_SIZE: nat := 32768
  const TX_SIZE: nat := 2048
  const CLUSTER_MAX: nat := 64
  const HEARTBEAT_MIN: u32 := 1000
  const HEARTBEAT_MAX: u32 := 120000

  // Node list types.
  const INITIAL_CONFIG: u8 := 0
  const MEMBERSHIP: u8 := 2
  const QUORUM: u8 := 3

  // Error codes.
  const E_NONE: u16 := 0
  const E_UNSUPPORTED_MESSAGE: u16 := 4
  const E_PREINIT_REQUIRED: u16 := 6
  const E_MISSING_OPTION: u16 := 7
  const E_UNEXPECTED_MESSAGE: u16 := 8
  const E_DECODING: u16 := 9
  const E_INIT_REQUIRED: u16 := 11
  const E_ALGORITHM: u16 := 12
  const E_HEARTBEAT: u16 := 13
  const E_ALGORITHM_MESSAGE: u16 := 14
  const E_ALGORITHM_DIFFERS: u16 := 16
  const E_CONFIG_LIST: u16 := 18
  const E_MEMBERSHIP_LIST: u16 := 19

  datatype Stage = Connected | PreinitDone | Active

  /** Index of the session's slot, or -1. */
  type SlotRef = x: int | -1 <= x < 8

  /** `sess_t`, as far as it influences a turn. */
  datatype Sess = Sess(
    stage: Stage, node: u32, ring: Ring, hasRing: bool, slot: SlotRef,
    hasConfig: bool, hasMemb: bool)

  const NEW_SESSION: Sess := Sess(Connected, 0, Ring(0, 0), false, -1, false, false)

  /** What a turn takes from outside: transports that accept a push, cluster-name
      admission, TLS availability and the client-certificate policy. */
  datatype Env = Env(ok: set<nat>, admits: bool, tls: bool, certReq: u8)

  datatype Reply =
    | Silent
    | Send(request: Request)
    | Echo(bytes: Bytes)
    | Upgrade
    | Drop

  datatype Outcome = Outcome(server: State, sess: Sess, reply: Reply)

  // ---------- Specification: handshake ----------

  function ErrorReply(m: Msg, code: u16): Reply {
    Send(ServerError(m.sn, code))
  }

  function InitReplyWith(m: Msg, code: u16): Reply {
    Send(InitReply(m.sn, code, RX_SIZE, TX_SIZE, [ALGO_FFSPLIT, ALGO_LMS]))
  }

  predicate GoodPreinit(m: Msg) {
    m.kind == PREINIT && m.cluster.Some? && 0 < |m.cluster.value| < CLUSTER_MAX
  }

  function PreinitStep(s: State, c: Sess, m: Msg, env: Env): Outcome {
    if !GoodPreinit(m) then
      Outcome(s, c, ErrorReply(m, if m.kind == PREINIT then E_MISSING_OPTION else E_PREINIT_REQUIRED))
    else if !env.admits then Outcome(s, c, Drop)
    else Outcome(s, c.(stage := PreinitDone), Send(PreinitReply(m.sn, if env.tls then 1 else 0, env.certReq)))
  }

  /** The code an INIT is refused with, or E_NONE. */
  function InitError(algo: u16, m: Msg): u16 {
    if m.nodeId == None || m.nodeId == Some(0) || m.tie == None || m.ring == None then E_MISSING_OPTION
    else if m.algorithm != Some(ALGO_FFSPLIT) && m.algorithm != Some(ALGO_LMS) then E_ALGORITHM
    else if algo != 0 && m.algorithm != Some(algo) then E_ALGORITHM_DIFFERS
    else if m.heartbeat == None || m.heartbeat.value < HEARTBEAT_MIN || m.heartbeat.value > HEARTBEAT_MAX
    then E_HEARTBEAT
    else E_NONE
  }

  function InitStep(s: State, c: Sess, m: Msg, env: Env): Outcome
    requires Shape(s)
  {
    if m.kind == STARTTLS then Outcome(s, c, if env.tls then Upgrade else ErrorReply(m, E_UNSUPPORTED_MESSAGE))
    else if m.kind != INIT then Outcome(s, c, ErrorReply(m, E_INIT_REQUIRED))
    else if InitError(s.algo, m) != E_NONE then Outcome(s, c, InitReplyWith(m, InitError(s.algo, m)))
    else
      var id, t := m.nodeId.value, m.tie.value;
      var c' := c.(node := id, ring := m.ring.value, hasRing := true);
      var i := SlotFor(s.ff.clients, id);
      if i < 0 then Outcome(s, c', Drop)
      else Outcome(Joined(s, id, t.mode, t.node, m.algorithm.value),
                   c'.(stage := Active, slot := i, hasConfig := false, hasMemb := false), InitReplyWith(m, E_NONE))
  }

  // ---------- Specification: node lists ----------

  function NodeIds(nodes: seq<Node>): (r: seq<u32>)
    ensures |r| == |nodes| && forall k :: 0 <= k < |r| ==> r[k] == nodes[k].nodeId
  {
    seq(|nodes|, k requires 0 <= k < |nodes| => nodes[k].nodeId)
  }

  function WithClient(s: State, i: nat, cl: Client): (r: State)
    requires Shape(s) && i < MAX_CLIENTS
    ensures Shape(r)
  {
    s.(ff := s.ff.(clients := s.ff.clients[i := cl]))
  }

  function HeurOf(cl: Client, m: Msg): u8 {
    if m.heur.Some? then m.heur.value else cl.heur
  }

  function MembershipStored(cl: Client, m: Msg): Client
    requires |m.nodes| <= FFSplit.MAX_NODES
  {
    var cl' := cl.(memb := NodeIds(m.nodes), heur := HeurOf(cl, m));
    if m.ring.Some? then cl'.(ringNode := m.ring.value.node, ringSeq := m.ring.value.sn, hasRing := true) else cl'
  }

  function ConfigStored(cl: Client, m: Msg): Client
    requires |m.nodes| <= FFSplit.MAX_NODES
  {
    cl.(cfg := NodeIds(m.nodes))
  }

  function MembershipSeen(c: Sess, m: Msg): Sess {
    c.(ring := if m.ring.Some? then m.ring.value else c.ring, hasMemb := true)
  }

  function ListReply(c: Sess, m: Msg, vote: u8): Reply
    requires m.sn.Some? && m.listType.Some?
  {
    Send(NodeListReply(m.sn.value, m.listType.value, c.ring, vote))
  }

  predicate ListComplete(c: Sess, m: Msg) {
    m.sn.Some? && m.listType.Some? && c.hasRing && c.slot >= 0
  }

  predicate ListsSelf(c: Sess, m: Msg) {
    c.node in NodeIds(m.nodes)
  }

  function ListError(m: Msg): u16 {
    if m.listType == Some(MEMBERSHIP) then E_MEMBERSHIP_LIST else E_CONFIG_LIST
  }

  /** The status a decision is reported with. */
  function StatusOf(s: State): u8 {
    if s.decided then VOTE_NO_CHANGE else VOTE_WAIT_FOR_REPLY
  }

  /** Recompute once both lists were seen, and report how it went. */
  ghost function Considered(s: State, c: Sess, ok: set<nat>): (State, u8)
    requires Shape(s)
  {
    if !c.hasConfig || !c.hasMemb then (s, VOTE_ASK_LATER)
    else (Recomputed(s, ok), StatusOf(Recomputed(s, ok)))
  }

  ghost function LmsDecided(s: State, i: nat): (State, u8)
    requires Shape(s) && i < MAX_CLIENTS
  {
    (s.(last := Lms.Saved(s.ff.clients, i, s.last)), Lms.Vote(s.ff.clients, i, s.last))
  }

  ghost function LmsListStep(s: State, c: Sess, m: Msg, ok: set<nat>): Outcome
    requires Shape(s) && ListComplete(c, m) && |m.nodes| <= FFSplit.MAX_NODES
  {
    if m.listType == Some(QUORUM) then
      var d := LmsDecided(s, c.slot);
      Outcome(d.0, c, ListReply(c, m, d.1))
    else if m.listType != Some(MEMBERSHIP) then Outcome(s, c, ListReply(c, m, VOTE_NO_CHANGE))
    else if !ListsSelf(c, m) then Outcome(s, c, ErrorReply(m, E_MEMBERSHIP_LIST))
    else
      var c' := MembershipSeen(c, m);
      var d := LmsDecided(WithClient(s, c.slot, MembershipStored(s.ff.clients[c.slot], m)), c.slot);
      Outcome(Refreshed(d.0, c.slot, ok), c', ListReply(c', m, d.1))
  }

  ghost function FFListStep(s: State, c: Sess, m: Msg, ok: set<nat>): Outcome
    requires Shape(s) && ListComplete(c, m) && |m.nodes| <= FFSplit.MAX_NODES
  {
    if m.listType == Some(QUORUM) then Outcome(s, c, ListReply(c, m, VOTE_NO_CHANGE))
    else if !ListsSelf(c, m) then Outcome(s, c, ErrorReply(m, ListError(m)))
    else
      var cl := s.ff.clients[c.slot];
      var isMemb := m.listType == Some(MEMBERSHIP);
      var c' := if isMemb then MembershipSeen(c, m) else c.(hasConfig := true);
      var cl' := if isMemb then MembershipStored(cl, m) else ConfigStored(cl, m);
      var d := Considered(WithClient(s, c.slot, cl'), c', ok);
      Outcome(d.0, c', ListReply(c', m, d.1))
  }

  ghost function ListStep(s: State, c: Sess, m: Msg, ok: set<nat>): Outcome
    requires Shape(s) && |m.nodes| <= FFSplit.MAX_NODES
  {
    if !ListComplete(c, m) then Outcome(s, c, ErrorReply(m, E_MISSING_OPTION))
    else if s.algo == ALGO_LMS then LmsListStep(s, c, m, ok)
    else FFListStep(s, c, m, ok)
  }

  // ---------- Specification: the other messages of an active session ----------

  ghost function AskStep(s: State, c: Sess, m: Msg, ok: set<nat>): Outcome
    requires Shape(s)
  {
    if m.sn == None || c.slot < 0 then Outcome(s, c, ErrorReply(m, E_MISSING_OPTION))
    else if s.algo != ALGO_LMS then Outcome(s, c, ErrorReply(m, E_ALGORITHM_MESSAGE))
    else
      var d := LmsDecided(s, c.slot);
      Outcome(Refreshed(d.0, c.slot, ok), c, Send(AskForVoteReply(m.sn.value, d.1, c.ring)))
  }

  ghost function HeurStep(s: State, c: Sess, m: Msg, ok: set<nat>): Outcome
    requires Shape(s)
  {
    if m.sn == None || (m.heur != Some(HEUR_PASS) && m.heur != Some(HEUR_FAIL)) || c.slot < 0 then
      Outcome(s, c, ErrorReply(m, E_MISSING_OPTION))
    else
      var d := if s.algo == ALGO_LMS then (s, VOTE_NO_CHANGE)
               else Considered(WithClient(s, c.slot, s.ff.clients[c.slot].(heur := m.heur.value)), c, ok);
      Outcome(d.0, c, Send(HeuristicsChangeReply(m.sn.value, d.1, c.ring, m.heur.value)))
  }

  function OptionStep(s: State, c: Sess, m: Msg): Outcome
    requires Shape(s)
  {
    var s' := if m.kap.Some? && c.slot >= 0
              then WithClient(s, c.slot, s.ff.clients[c.slot].(kap := m.kap.value != 0)) else s;
    Outcome(s', c, Send(SetOptionReply(m.sn, m.heartbeat, m.kap)))
  }

  function VoteReplyStep(s: State, c: Sess, m: Msg, ok: set<nat>): Outcome
    requires Shape(s)
  {
    Outcome(if s.algo == ALGO_FFSPLIT && c.slot >= 0 && m.sn.Some? then Answered(s, c.slot, m.sn.value, ok) else s,
            c, Silent)
  }

  /** A byte copy of the request with the type overwritten, if it fits the reply buffer. */
  function EchoOf(frame: Bytes): Reply
    requires |frame| >= HEADER_LEN
  {
    if |frame| > TX_SIZE then Drop else Echo(Put16(ECHO_REPLY) + frame[2..])
  }

  ghost function ActiveStep(s: State, c: Sess, m: Msg, frame: Bytes, ok: set<nat>): Outcome
    requires Shape(s) && |m.nodes| <= FFSplit.MAX_NODES && |frame| >= HEADER_LEN
  {
    if m.kind == ECHO_REQUEST then Outcome(s, c, EchoOf(frame))
    else if m.kind == NODE_LIST then ListStep(s, c, m, ok)
    else if m.kind == ASK_FOR_VOTE then AskStep(s, c, m, ok)
    else if m.kind == HEURISTICS_CHANGE then HeurStep(s, c, m, ok)
    else if m.kind == SET_OPTION then OptionStep(s, c, m)
    else if m.kind == VOTE_INFO_REPLY then VoteReplyStep(s, c, m, ok)
    else Outcome(s, c, ErrorReply(m, E_UNEXPECTED_MESSAGE))
  }

  ghost function MessageStep(s: State, c: Sess, m: Msg, frame: Bytes, env: Env): Outcome
    requires Shape(s) && |m.nodes| <= FFSplit.MAX_NODES && |frame| >= HEADER_LEN
  {
    match c.stage
    case Connected => PreinitStep(s, c, m, env)
    case PreinitDone => InitStep(s, c, m, env)
    case Active => ActiveStep(s, c, m, frame, env.ok)
  }

  /** One frame: a frame that does not decode changes nothing. */
  ghost function FrameStep(s: State, c: Sess, frame: Bytes, env: Env): Outcome
    requires Shape(s)
  {
    match DecodeOf(frame, RX_SIZE)
    case Err(_) => Outcome(s, c, Send(ServerError(None, E_DECODING)))
    case Ok(m) =>
      DecodedNodesFit(frame, RX_SIZE);
      MessageStep(s, c, m, frame, env)
  }

  lemma {:induction false} FoldNodesFit(m: Msg, b: Bytes)
    requires |m.nodes| <= FFSplit.MAX_NODES && Fold(m, b).Ok?
    ensures |Fold(m, b).value.nodes| <= FFSplit.MAX_NODES
    decreases |b|
  {
    match NextOf(b)
    case Item(e, rest) => FoldNodesFit(Apply(m, e).value, rest);
    case _ =>
  }

  lemma DecodedNodesFit(frame: Bytes, max: nat)
    requires DecodeOf(frame, max).Ok?
    ensures |DecodeOf(frame, max).value.nodes| <= FFSplit.MAX_NODES && |frame| >= HEADER_LEN
  {
    var h := Check(frame, max).value;
    FoldNodesFit(EmptyMsg(h.kind), frame[HEADER_LEN..HEADER_LEN + h.len]);
  }

  ghost function LeaveStep(s: State, c: Sess, ok: set<nat>): State
    requires Shape(s)
  {
    if c.slot >= 0 then Left(s, c.slot, ok) else s
  }

  // ---------- Replies always fit ----------

  predicate IsReply(r: Request) {
    && (r.ServerError? || r.PreinitReply? || r.InitReply? || r.NodeListReply? || r.AskForVoteReply?
        || r.HeuristicsChangeReply? || r.SetOptionReply?)
    && (r.InitReply? ==> |r.algos| == 2)
  }

  predicate Small(o: Opt) {
    ValueOf(o).Ok? && |ValueOf(o).value| <= 48
  }

  lemma {:induction false} SmallOptionsFit(os: seq<Opt>, room: int)
    requires (forall o :: o in os ==> Small(o)) && 52 * |os| <= room
    ensures Emit(os, room).Ok?
  {
    if os != [] {
      assert Small(os[0]);
      SmallOptionsFit(os[1..], room - 4 - |ValueOf(os[0]).value|);
    }
  }

  lemma InitReplySmall(r: Request)
    requires IsReply(r) && r.InitReply?
    ensures |Options(r)| <= 7 && forall o :: o in Options(r) ==> Small(o)
  {}

  lemma OtherReplySmall(r: Request)
    requires IsReply(r) && !r.InitReply?
    ensures |Options(r)| <= 7 && forall o :: o in Options(r) ==> Small(o)
  {}

  lemma RepliesFit(r: Request)
    requires IsReply(r)
    ensures Encode(r, TX_SIZE).Ok?
  {
    if r.InitReply? { InitReplySmall(r); } else { OtherReplySmall(r); }
    hide Options, Small;
    SmallOptionsFit(Options(r), TX_SIZE - HEADER_LEN);
  }

  /** Every reply of the server fits its transmit buffer: building one never fails. */
  lemma EveryReplyFits(s: State, c: Sess, frame: Bytes, env: Env)
    requires Shape(s) && FrameStep(s, c, frame, env).reply.Send?
    ensures Encode(FrameStep(s, c, frame, env).reply.request, TX_SIZE).Ok?
  {
    hide DecodeOf, Recomputed, Refreshed, Joined, Answered, Encode;
    RepliesFit(FrameStep(s, c, frame, env).reply.request);
  }

  lemma FullTableJoins(s: State, m: Msg)
    requires Shape(s) && m.nodeId.Some? && m.tie.Some? && m.algorithm.Some?
    requires SlotFor(s.ff.clients, m.nodeId.value) < 0
    ensures Joined(s, m.nodeId.value, m.tie.value.mode, m.tie.value.node, m.algorithm.value) == s
  {}

  // ---------- The code ----------

  class Session {
    var stage: Stage
    var node: u32
    var ring: Ring
    var hasRing: bool
    var slot: SlotRef
    var hasConfig: bool
    var hasMemb: bool

    ghost function View(): Sess
      reads this
    {
      Sess(stage, node, ring, hasRing, slot, hasConfig, hasMemb)
    }

    ghost predicate Became(srv: Server, o: Outcome, reply: Reply)
      reads this, srv, srv.table, srv.table.clients, srv.st, srv.sn, srv.last
    {
      srv.Valid() && srv.View() == o.server && View() == o.sess && reply == o.reply
    }

    constructor ()
      ensures View() == NEW_SESSION
    {
      stage, node, ring, hasRing := Connected, 0, Ring(0, 0), false;
      slot, hasConfig, hasMemb := -1, false, false;
    }

    method OnConnected(srv: Server, m: Msg, env: Env) returns (reply: Reply)
      requires srv.Valid()
      modifies this`stage
      ensures Became(srv, PreinitStep(old(srv.View()), old(View()), m, env), reply)
    {
      if m.kind != PREINIT || m.cluster == None || |m.cluster.value| == 0 || |m.cluster.value| >= CLUSTER_MAX {
        return ErrorReply(m, if m.kind == PREINIT then E_MISSING_OPTION else E_PREINIT_REQUIRED);
      }
      if !env.admits {
        return Drop;
      }
      stage := PreinitDone;
      return Send(PreinitReply(m.sn, if env.tls then 1 else 0, env.certReq));
    }

    /** The checks of an INIT, in order. */
    method CheckInit(srv: Server, m: Msg) returns (code: u16)
      requires srv.Valid()
      ensures code == InitError(srv.algo, m)
      ensures code == E_NONE ==> m.nodeId.Some? && m.tie.Some? && m.ring.Some? && m.algorithm.Some?
    {
      if m.nodeId == None || m.nodeId.value == 0 || m.tie == None || m.ring == None {
        return E_MISSING_OPTION;
      }
      if m.algorithm == None || (m.algorithm.value != ALGO_FFSPLIT && m.algorithm.value != ALGO_LMS) {
        return E_ALGORITHM;
      }
      if srv.algo != 0 && srv.algo != m.algorithm.value {
        return E_ALGORITHM_DIFFERS;
      }
      if m.heartbeat == None || m.heartbeat.value < HEARTBEAT_MIN || m.heartbeat.value > HEARTBEAT_MAX {
        return E_HEARTBEAT;
      }
      return E_NONE;
    }

    method OnPreinitDone(srv: Server, m: Msg, env: Env) returns (reply: Reply)
      requires srv.Valid()
      modifies this, srv`algo, srv`logs, srv.table.clients, srv.st, srv.sn, srv.last
      ensures Became(srv, InitStep(old(srv.View()), old(View()), m, env), reply)
    {
      hide Joined, InitError, SlotFor;
      if m.kind == STARTTLS {
        if !env.tls {
          return ErrorReply(m, E_UNSUPPORTED_MESSAGE);
        }
        return Upgrade;
      }
      if m.kind != INIT {
        return ErrorReply(m, E_INIT_REQUIRED);
      }
      var code := CheckInit(srv, m);
      if code != E_NONE {
        return InitReplyWith(m, code);
      }
      node := m.nodeId.value;
      ring := m.ring.value;
      hasRing := true;
      var idx := srv.Join(node, m.tie.value.mode, m.tie.value.node, m.algorithm.value);
      if idx < 0 {
        FullTableJoins(old(srv.View()), m);
        return Drop;
      }
      slot := idx;
      hasConfig := false;
      hasMemb := false;
      stage := Active;
      return InitReplyWith(m, E_NONE);
    }

    /** Is the session's own node in the list? */
    method ListedSelf(m: Msg) returns (self: bool)
      ensures self == ListsSelf(View(), m)
    {
      var k := 0;
      while k < |m.nodes|
        invariant 0 <= k <= |m.nodes|
        invariant forall j :: 0 <= j < k ==> m.nodes[j].nodeId != node
      {
        if m.nodes[k].nodeId == node {
          assert NodeIds(m.nodes)[k] == node;
          return true;
        }
        k := k + 1;
      }
      return false;
    }

    method CopyIds(m: Msg) returns (ids: seq<u32>)
      ensures ids == NodeIds(m.nodes)
    {
      ids := [];
      var k := 0;
      while k < |m.nodes|
        invariant 0 <= k <= |m.nodes| && |ids| == k
        invariant forall j :: 0 <= j < k ==> ids[j] == m.nodes[j].nodeId
      {
        ids := ids + [m.nodes[k].nodeId];
        k := k + 1;
      }
    }

    /** Store a membership list in the session's slot. */
    method StoreMembership(srv: Server, m: Msg)
      requires srv.Valid() && 0 <= slot && |m.nodes| <= FFSplit.MAX_NODES
      modifies this, srv.table.clients
      ensures srv.Valid()
      ensures srv.View() == WithClient(old(srv.View()), old(slot),
                                       MembershipStored(old(srv.table.clients[slot]), m))
      ensures View() == MembershipSeen(old(View()), m)
    {
      var ids := CopyIds(m);
      var cl := srv.table.clients[slot].(memb := ids);
      if m.ring.Some? {
        cl := cl.(ringNode := m.ring.value.node, ringSeq := m.ring.value.sn, hasRing := true);
        ring := m.ring.value;
      }
      if m.heur.Some? {
        cl := cl.(heur := m.heur.value);
      }
      hasMemb := true;
      srv.table.clients[slot] := cl;
    }

    method StoreConfig(srv: Server, m: Msg)
      requires srv.Valid() && 0 <= slot && |m.nodes| <= FFSplit.MAX_NODES
      modifies this`hasConfig, srv.table.clients
      ensures srv.Valid()
      ensures srv.View() == WithClient(old(srv.View()), slot, ConfigStored(old(srv.table.clients[slot]), m))
      ensures View() == old(View()).(hasConfig := true)
    {
      var ids := CopyIds(m);
      srv.table.clients[slot] := srv.table.clients[slot].(cfg := ids);
      hasConfig := true;
    }

    /** Recompute when both lists are known; the status to report. */
    method Consider(srv: Server, ok: set<nat>) returns (status: u8)
      requires srv.Valid()
      modifies srv, srv.table`quorate, srv.st, srv.sn
      ensures srv.Valid()
      ensures (srv.View(), status) == Considered(old(srv.View()), View(), ok)
    {
      if !hasConfig || !hasMemb {
        return VOTE_ASK_LATER;
      }
      srv.Recompute(ok);
      return if srv.decided then VOTE_NO_CHANGE else VOTE_WAIT_FOR_REPLY;
    }

    method OnListLms(srv: Server, m: Msg, ok: set<nat>) returns (reply: Reply)
      requires srv.Valid() && ListComplete(View(), m) && |m.nodes| <= FFSplit.MAX_NODES
      modifies this, srv`logs, srv.table.clients, srv.sn, srv.last
      ensures Became(srv, LmsListStep(old(srv.View()), old(View()), m, ok), reply)
    {
      var vote: u8;
      if m.listType.value == QUORUM {
        vote := Lms.Decide(srv.table, slot, srv.last);
      } else if m.listType.value == MEMBERSHIP {
        var self := ListedSelf(m);
        if |m.nodes| == 0 || !self {
          return ErrorReply(m, E_MEMBERSHIP_LIST);
        }
        StoreMembership(srv, m);
        vote := Lms.Decide(srv.table, slot, srv.last);
        srv.LmsRefreshOthers(slot, ok);
      } else {
        vote := VOTE_NO_CHANGE;
      }
      return Send(NodeListReply(m.sn.value, m.listType.value, ring, vote));
    }

    method OnListFFSplit(srv: Server, m: Msg, ok: set<nat>) returns (reply: Reply)
      requires srv.Valid() && ListComplete(View(), m) && |m.nodes| <= FFSplit.MAX_NODES
      modifies this, srv, srv.table, srv.table.clients, srv.st, srv.sn
      ensures Became(srv, FFListStep(old(srv.View()), old(View()), m, ok), reply)
    {
      var status: u8;
      if m.listType.value == QUORUM {
        status := VOTE_NO_CHANGE;
      } else {
        var self := ListedSelf(m);
        if |m.nodes| == 0 || !self {
          return ErrorReply(m, if m.listType.value == MEMBERSHIP then E_MEMBERSHIP_LIST else E_CONFIG_LIST);
        }
        if m.listType.value == MEMBERSHIP {
          StoreMembership(srv, m);
        } else {
          StoreConfig(srv, m);
        }
        status := Consider(srv, ok);
      }
      return Send(NodeListReply(m.sn.value, m.listType.value, ring, status));
    }

    method OnNodeList(srv: Server, m: Msg, ok: set<nat>) returns (reply: Reply)
      requires srv.Valid() && |m.nodes| <= FFSplit.MAX_NODES
      modifies this, srv, srv.table, srv.table.clients, srv.st, srv.sn, srv.last
      ensures Became(srv, ListStep(old(srv.View()), old(View()), m, ok), reply)
    {
      if m.sn == None || m.listType == None || !hasRing || slot < 0 {
        return ErrorReply(m, E_MISSING_OPTION);
      }
      if srv.algo == ALGO_LMS {
        reply := OnListLms(srv, m, ok);
      } else {
        reply := OnListFFSplit(srv, m, ok);
      }
    }

    method OnAskForVote(srv: Server, m: Msg, ok: set<nat>) returns (reply: Reply)
      requires srv.Valid()
      modifies srv`logs, srv.sn, srv.last
      ensures Became(srv, AskStep(old(srv.View()), View(), m, ok), reply)
    {
      if m.sn == None || slot < 0 {
        return ErrorReply(m, E_MISSING_OPTION);
      }
      if srv.algo != ALGO_LMS {
        return ErrorReply(m, E_ALGORITHM_MESSAGE);
      }
      var vote := Lms.Decide(srv.table, slot, srv.last);
      srv.LmsRefreshOthers(slot, ok);
      return Send(AskForVoteReply(m.sn.value, vote, ring));
    }

    method OnHeuristicsChange(srv: Server, m: Msg, ok: set<nat>) returns (reply: Reply)
      requires srv.Valid()
      modifies srv, srv.table, srv.table.clients, srv.st, srv.sn
      ensures Became(srv, HeurStep(old(srv.View()), View(), m, ok), reply)
    {
      if m.sn == None || m.heur == None || (m.heur.value != HEUR_PASS && m.heur.value != HEUR_FAIL) || slot < 0 {
        return ErrorReply(m, E_MISSING_OPTION);
      }
      var status: u8;
      if srv.algo == ALGO_LMS {
        status := VOTE_NO_CHANGE;
      } else {
        srv.table.clients[slot] := srv.table.clients[slot].(heur := m.heur.value);
        status := Consider(srv, ok);
      }
      return Send(HeuristicsChangeReply(m.sn.value, status, ring, m.heur.value));
    }

    method OnSetOption(srv: Server, m: Msg) returns (reply: Reply)
      requires srv.Valid()
      modifies srv.table.clients
      ensures Became(srv, OptionStep(old(srv.View()), View(), m), reply)
    {
      if m.kap.Some? && slot >= 0 {
        srv.table.clients[slot] := srv.table.clients[slot].(kap := m.kap.value != 0);
      }
      return Send(SetOptionReply(m.sn, m.heartbeat, m.kap));
    }

    method OnVoteInfoReply(srv: Server, m: Msg, ok: set<nat>) returns (reply: Reply)
      requires srv.Valid()
      modifies srv`phase, srv`logs, srv.sn, srv.st
      ensures Became(srv, VoteReplyStep(old(srv.View()), View(), m, ok), reply)
    {
      if srv.algo == ALGO_FFSPLIT && slot >= 0 && m.sn.Some? {
        srv.OnVoteInfoReply(slot, m.sn.value, ok);
      }
      return Silent;
    }

    method OnActive(srv: Server, m: Msg, frame: Bytes, ok: set<nat>) returns (reply: Reply)
      requires srv.Valid() && |m.nodes| <= FFSplit.MAX_NODES && |frame| >= HEADER_LEN
      modifies this, srv, srv.table, srv.table.clients, srv.st, srv.sn, srv.last
      ensures Became(srv, ActiveStep(old(srv.View()), old(View()), m, frame, ok), reply)
    {
      hide ListStep, AskStep, HeurStep, OptionStep, VoteReplyStep;
      if m.kind == ECHO_REQUEST {
        return EchoOf(frame);
      }
      if m.kind == NODE_LIST {
        reply := OnNodeList(srv, m, ok);
      } else if m.kind == ASK_FOR_VOTE {
        reply := OnAskForVote(srv, m, ok);
      } else if m.kind == HEURISTICS_CHANGE {
        reply := OnHeuristicsChange(srv, m, ok);
      } else if m.kind == SET_OPTION {
        reply := OnSetOption(srv, m);
      } else if m.kind == VOTE_INFO_REPLY {
        reply := OnVoteInfoReply(srv, m, ok);
      } else {
        reply := ErrorReply(m, E_UNEXPECTED_MESSAGE);
      }
    }

    /** `on_frame`: decode, then act on the session's stage. */
    method OnFrame(srv: Server, frame: Bytes, env: Env) returns (reply: Reply)
      requires srv.Valid()
      modifies this, srv, srv.table, srv.table.clients, srv.st, srv.sn, srv.last
      ensures Became(srv, FrameStep(old(srv.View()), old(View()), frame, env), reply)
    {
      hide DecodeOf, PreinitStep, InitStep, ActiveStep;
      var d := Decode(frame, RX_SIZE);
      if d.Err? {
        return Send(ServerError(None, E_DECODING));
      }
      DecodedNodesFit(frame, RX_SIZE);
      match stage {
        case Connected => reply := OnConnected(srv, d.value, env);
        case PreinitDone => reply := OnPreinitDone(srv, d.value, env);
        case Active => reply := OnActive(srv, d.value, frame, env.ok);
      }
    }

    /** The end of a session: its client leaves the table. */
    method OnEnd(srv: Server, ok: set<nat>)
      requires srv.Valid()
      modifies this`slot, srv, srv.table, srv.table.clients, srv.st, srv.sn, srv.last
      ensures srv.Valid() && srv.View() == LeaveStep(old(srv.View()), old(View()), ok)
      ensures slot == -1
    {
      if slot >= 0 {
        srv.Leave(slot, ok);
        slot := -1;
      }
    }
  }
}
