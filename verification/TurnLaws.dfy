/** What the reply to one frame tells the client: about its request, about the ring of its
    session and about the shared state. */
module TurnLaws {
  import opened Defs
  import opened Wire
  import opened FFSplit
  import opened Push
  import opened PushLaws
  import opened Turns
  import opened LayoutLaws
  import M = Msg
  import MsgLaws

  predicate IsError(r: Reply) {
    r.Send? && (r.request.ServerError? || (r.request.InitReply? && r.request.error != E_NONE))
  }

  /** An error reply -- malformed frame, wrong stage, missing option, refused INIT, bad node
      list -- leaves the shared state and the session as they were. */
  lemma ErrorsChangeNothing(s: State, c: Sess, frame: Bytes, env: Env)
    requires Shape(s) && IsError(FrameStep(s, c, frame, env).reply)
    ensures FrameStep(s, c, frame, env).server == s && FrameStep(s, c, frame, env).sess == c
    ensures M.DecodeOf(frame, RX_SIZE).Err? ==>
              FrameStep(s, c, frame, env).reply == Send(M.ServerError(None, E_DECODING))
  {
    hide M.DecodeOf, Recomputed, Refreshed, Joined, Answered, LmsDecided, Considered;
  }

  /** The vote field of an FFSplit node list reply is a true status: "ask later" until both
      lists are known, then "no change" exactly when the table was stable and a decision was
      taken, else "wait for reply". */
  lemma StatusIsTruthful(s: State, c: Sess, m: M.Msg, ok: set<nat>)
    requires Shape(s) && s.algo != ALGO_LMS && |m.nodes| <= FFSplit.MAX_NODES
    requires ListComplete(c, m) && ListsSelf(c, m) && m.listType != Some(QUORUM)
    ensures var o := ListStep(s, c, m, ok);
            && o.reply.Send? && o.reply.request.NodeListReply? && o.reply.request.ring == o.sess.ring
            && var v, known, t := o.reply.request.vote, o.sess.hasConfig && o.sess.hasMemb, o.server.ff.clients;
               && (v == VOTE_ASK_LATER <==> !known)
               && (v == VOTE_NO_CHANGE <==> known && Stable(t))
               && (v == VOTE_WAIT_FOR_REPLY <==> known && !Stable(t))
               && (|o.server.decisions| > |s.decisions| <==> v == VOTE_NO_CHANGE)
  {
    hide Recomputed, Stable;
    var cl, isMemb := s.ff.clients[c.slot], m.listType == Some(MEMBERSHIP);
    var r := WithClient(s, c.slot, if isMemb then MembershipStored(cl, m) else ConfigStored(cl, m));
    RecomputedStatus(r, ok);
  }

  /** The same for the reply to a heuristics change. */
  lemma HeurStatusIsTruthful(s: State, c: Sess, m: M.Msg, ok: set<nat>)
    requires Shape(s) && s.algo != ALGO_LMS && HeurStep(s, c, m, ok).reply.request.HeuristicsChangeReply?
    ensures var o, known := HeurStep(s, c, m, ok), c.hasConfig && c.hasMemb;
            var v, t := o.reply.request.vote, o.server.ff.clients;
            && (v == VOTE_ASK_LATER <==> !known)
            && (v == VOTE_NO_CHANGE <==> known && Stable(t))
            && (v == VOTE_WAIT_FOR_REPLY <==> known && !Stable(t))
            && (|o.server.decisions| > |s.decisions| <==> v == VOTE_NO_CHANGE)
  {
    hide Recomputed, Stable;
    RecomputedStatus(WithClient(s, c.slot, s.ff.clients[c.slot].(heur := m.heur.value)), ok);
  }

  lemma RecomputedStatus(s: State, ok: set<nat>)
    requires Shape(s)
    ensures var r := Recomputed(s, ok);
            && r.ff.clients == s.ff.clients
            && (r.decided <==> Stable(s.ff.clients))
            && (|r.decisions| > |s.decisions| <==> Stable(s.ff.clients))
  {
    if Stable(s.ff.clients) { RecomputedElsewhere(s, ok); }
  }

  predicate Matching(m: M.Msg, o: Outcome) {
    o.reply.Send? ==>
      && var said := MsgLaws.Arguments(o.reply.request);
         said.sn == m.sn && (said.kind == M.SERVER_ERROR || said.kind == m.kind + 1)
         && (said.ring.Some? ==> said.ring == Some(o.sess.ring) && o.sess.stage == Active)
         && (said.kind == M.INIT_REPLY ==>
               said.maxReq == Some(32768) && said.maxRep == Some(2048) && said.supAlgos == [1, 3])
         && (said.kind == M.NODE_LIST_REPLY ==> said.listType == m.listType)
         && (said.kind == M.HEURISTICS_CHANGE_REPLY ==> said.heur == m.heur)
         && (said.kind == M.SET_OPTION_REPLY ==> said.heartbeat == m.heartbeat && said.kap == m.kap)
  }

  lemma ListMatches(s: State, c: Sess, m: M.Msg, ok: set<nat>)
    requires Shape(s) && m.kind == M.NODE_LIST && c.stage == Active && |m.nodes| <= FFSplit.MAX_NODES
    ensures var o := ListStep(s, c, m, ok);
            && Matching(m, o) && o.reply.Send?
            && o.sess.ring == if m.listType == Some(MEMBERSHIP) && o.reply.request.NodeListReply? && m.ring.Some?
                              then m.ring.value else c.ring
  {
    hide Recomputed, Refreshed, LmsDecided, Considered;
  }

  predicate Echoed(m: M.Msg, frame: Bytes, reply: Reply) {
    reply.Echo? ==>
      && |reply.bytes| == |frame| && |frame| >= 2 && reply.bytes[2..] == frame[2..]
      && Weigh(reply.bytes[..2]) == m.kind + 1 && m.kind == M.ECHO_REQUEST
  }

  lemma ActiveMatches(s: State, c: Sess, m: M.Msg, frame: Bytes, ok: set<nat>)
    requires Shape(s) && c.stage == Active && |m.nodes| <= FFSplit.MAX_NODES && |frame| >= M.HEADER_LEN
    ensures var o := ActiveStep(s, c, m, frame, ok);
            Matching(m, o) && Echoed(m, frame, o.reply) && (o.reply.Silent? ==> m.kind == M.VOTE_INFO_REPLY)
  {
    hide ListStep, Refreshed, Answered, LmsDecided, Considered, Weigh, Put16;
    if m.kind == M.NODE_LIST { ListMatches(s, c, m, ok); }
    BigEndian16(M.ECHO_REPLY, []);
    assert (Put16(M.ECHO_REPLY) + frame[2..])[..2] == Put16(M.ECHO_REPLY);
  }

  /** Every reply repeats the number and the settings of its request, is of the reply type of
      the request or an error, and carries the ring of the session; an echo differs in its
      type only. */
  lemma RepliesMatch(s: State, c: Sess, frame: Bytes, env: Env)
    requires Shape(s) && M.DecodeOf(frame, RX_SIZE).Ok?
    ensures var o, m := FrameStep(s, c, frame, env), M.DecodeOf(frame, RX_SIZE).value;
            Matching(m, o) && Echoed(m, frame, o.reply) && (o.reply.Silent? ==> m.kind == M.VOTE_INFO_REPLY)
  {
    hide M.DecodeOf, ActiveStep, Joined, InitError;
    DecodedNodesFit(frame, RX_SIZE);
    if c.stage == Active { ActiveMatches(s, c, M.DecodeOf(frame, RX_SIZE).value, frame, env.ok); }
  }

  /** The ring of a session is the one its latest accepted INIT or membership list brought. */
  lemma RingIsLatest(s: State, c: Sess, frame: Bytes, env: Env)
    requires Shape(s) && M.DecodeOf(frame, RX_SIZE).Ok?
    ensures var o, m := FrameStep(s, c, frame, env), M.DecodeOf(frame, RX_SIZE).value;
            var accepted := (c.stage == PreinitDone && o.sess.stage == Active)
                            || (m.kind == M.NODE_LIST && m.listType == Some(MEMBERSHIP) && o.reply.Send?
                                && o.reply.request.NodeListReply?);
            !o.reply.Drop? ==> o.sess.ring == if accepted && m.ring.Some? then m.ring.value else c.ring
  {
    hide M.DecodeOf, ListStep, Recomputed, Refreshed, Joined, Answered, LmsDecided, Considered;
    DecodedNodesFit(frame, RX_SIZE);
    var m := M.DecodeOf(frame, RX_SIZE).value;
    if c.stage == Active && m.kind == M.NODE_LIST { ListMatches(s, c, m, env.ok); }
  }

  /** An INIT is answered with success exactly when the node, tie-breaker and ring are given,
      the algorithm is known and that of the cluster, the heartbeat is within a second and two
      minutes, and the table has a slot for the node. */
  lemma InitExactly(s: State, c: Sess, frame: Bytes, env: Env)
    requires Shape(s) && M.DecodeOf(frame, RX_SIZE).Ok? && M.DecodeOf(frame, RX_SIZE).value.kind == M.INIT
    requires c.stage == PreinitDone
    ensures var o, m := FrameStep(s, c, frame, env), M.DecodeOf(frame, RX_SIZE).value;
            (o.reply.Send? && o.reply.request.InitReply? && o.reply.request.error == 0 <==>
               && m.nodeId.Some? && m.nodeId.value != 0 && m.tie.Some? && m.ring.Some?
               && (m.algorithm == Some(ALGO_FFSPLIT) || m.algorithm == Some(ALGO_LMS))
               && (s.algo == 0 || m.algorithm == Some(s.algo))
               && m.heartbeat.Some? && 1000 <= m.heartbeat.value <= 120000
               && exists i :: 0 <= i < MAX_CLIENTS
                    && (!s.ff.clients[i].used || s.ff.clients[i].nodeId == m.nodeId.value))
  {
    hide M.DecodeOf, Joined;
    DecodedNodesFit(frame, RX_SIZE);
    var m := M.DecodeOf(frame, RX_SIZE).value;
    if m.nodeId.Some? {
      var t, id := s.ff.clients, m.nodeId.value;
      if SlotFor(t, id) >= 0 { assert !t[SlotFor(t, id)].used || t[SlotFor(t, id)].nodeId == id; }
      if i :| 0 <= i < MAX_CLIENTS && (!t[i].used || t[i].nodeId == id) {
        assert !t[i].used || Holds(t, i, id);
      }
    }
  }

  /** A session leaves its first stage exactly by a PREINIT with a cluster name of 1 to 63
      bytes that the server admits; any other frame changes nothing, a name that is not
      admitted ends the session. */
  lemma PreinitExactly(s: State, c: Sess, frame: Bytes, env: Env)
    requires Shape(s) && c.stage == Connected && M.DecodeOf(frame, RX_SIZE).Ok?
    ensures var o, m := FrameStep(s, c, frame, env), M.DecodeOf(frame, RX_SIZE).value;
            var named := m.kind == M.PREINIT && m.cluster.Some? && 1 <= |m.cluster.value| <= 63;
            && o.server == s
            && (named && env.admits ==> o.sess == c.(stage := PreinitDone) && o.reply.Send?
                                        && MsgLaws.Arguments(o.reply.request).tls == Some(if env.tls then 1 else 0)
                                        && MsgLaws.Arguments(o.reply.request).certReq == Some(env.certReq))
            && (named && !env.admits ==> o.sess == c && o.reply.Drop?)
            && (!named ==> o.sess == c && o.reply.Send?
                           && MsgLaws.Arguments(o.reply.request).error == Some(if m.kind == M.PREINIT then 7 else 6))
  {
    hide M.DecodeOf;
  }

  /** A complete node list is accepted exactly when it needs no nodes -- a quorum list, or any
      list but a membership under LMS -- or names its sender; else the error says which. */
  lemma ListAcceptedExactly(s: State, c: Sess, m: M.Msg, ok: set<nat>)
    requires Shape(s) && ListComplete(c, m) && |m.nodes| <= FFSplit.MAX_NODES
    ensures var r := ListStep(s, c, m, ok).reply;
            && r.Send?
            && (r.request.NodeListReply? <==>
                  m.listType == Some(3) || (s.algo == ALGO_LMS && m.listType != Some(2))
                  || exists k :: 0 <= k < |m.nodes| && m.nodes[k].nodeId == c.node)
            && (!r.request.NodeListReply? ==>
                  MsgLaws.Arguments(r.request).error == Some(if m.listType == Some(2) then 19 else 18))
  {
    hide Recomputed, Refreshed, LmsDecided, Considered;
    if k :| 0 <= k < |m.nodes| && m.nodes[k].nodeId == c.node {
      assert NodeIds(m.nodes)[k] == c.node;
    }
  }
}
