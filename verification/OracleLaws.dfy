/** The two programs side by side: the server and the test oracle, given the same frame in
    corresponding stages, accept the same handshakes and report the same errors. */
module OracleLaws {
  import opened Defs
  import opened Wire
  import opened Msg
  import CodecLaws
  import J = JsMsg
  import P = Push
  import S = Session
  import T = Turns
  import Tlv

  /** Both decode `frame`, to the same fields. */
  ghost predicate BothDecode(frame: Bytes, cfg: S.Config) {
    && cfg.maxReceiveSize == T.RX_SIZE && DecodeOf(frame, T.RX_SIZE).Ok?
    && J.DecodeMessageOf(frame, T.RX_SIZE).Ok?
    && DecodeOf(frame, T.RX_SIZE).value
       == CodecLaws.StructOf(J.DecodeMessageOf(frame, T.RX_SIZE).value, DecodeOf(frame, T.RX_SIZE).value.nodes)
  }

  lemma DecodeAlike(frame: Bytes, cfg: S.Config)
    requires cfg.maxReceiveSize == T.RX_SIZE && DecodeOf(frame, T.RX_SIZE).Ok?
    ensures BothDecode(frame, cfg) && |frame| >= HEADER_LEN
  {
    hide DecodeOf, J.DecodeMessageOf;
    CodecLaws.DecodersAgree(frame, T.RX_SIZE);
    T.DecodedNodesFit(frame, T.RX_SIZE);
  }

  /** A frame the server can decode gets the same error from both before PREINIT, and advances
      both -- except that the oracle has no limit of 63 bytes on the cluster name and admits
      every cluster. */
  lemma GreetingsAlike(s: P.State, c: T.Sess, env: T.Env, cfg: S.Config, o: S.State, frame: Bytes)
    requires P.Shape(s) && c.stage == T.Connected && o.stage == S.Connected
    requires cfg.maxReceiveSize == T.RX_SIZE && DecodeOf(frame, T.RX_SIZE).Ok?
    ensures var a, b := T.FrameStep(s, c, frame, env), S.Handle(cfg, o, frame);
            && (b.answer.Reply? && b.answer.request.ServerError? ==> a.reply == T.Send(b.answer.request))
            && (a.sess.stage == T.PreinitDone ==> b.state.stage == S.PreinitDone)
            && (b.state.stage == S.PreinitDone && |b.state.clusterName.value| <= 63 && env.admits ==>
                  a.sess.stage == T.PreinitDone)
  {
    DecodeAlike(frame, cfg);
    hide DecodeOf, J.DecodeMessageOf;
  }

  predicate Refuses(r: Request) {
    r.ServerError? || (r.InitReply? && r.error != 0)
  }

  /** After PREINIT, with TLS available to both and up where it is required: the same frames
      are refused, with the same reply type and number, and with the same code unless an INIT
      lacks its tie-breaker or ring. The server refuses, besides, an algorithm other than that
      of its cluster. */
  lemma InitsAlike(s: P.State, c: T.Sess, env: T.Env, cfg: S.Config, o: S.State, frame: Bytes)
    requires P.Shape(s) && c.stage == T.PreinitDone && (o.stage == S.PreinitDone || o.stage == S.TlsUpgraded)
    requires (env.tls <==> cfg.tlsMode != S.Off) && (cfg.tlsMode == S.Req ==> o.tlsUpgraded)
    requires cfg.maxReceiveSize == T.RX_SIZE && DecodeOf(frame, T.RX_SIZE).Ok?
    ensures var a, b, m := T.FrameStep(s, c, frame, env), S.Handle(cfg, o, frame), DecodeOf(frame, T.RX_SIZE).value;
            && (a.reply.Upgrade? <==> b.answer.Nothing?)
            && (b.answer.Reply? && Refuses(b.answer.request) ==>
                  && a.reply.Send? && Refuses(a.reply.request)
                  && (b.answer.request.ServerError? ==> a.reply.request == b.answer.request)
                  && (b.answer.request.InitReply? ==>
                        && a.reply.request.InitReply? && a.reply.request.sn == b.answer.request.sn
                        && (m.tie.Some? && m.ring.Some? && (s.algo == 0 || m.algorithm == Some(s.algo)) ==>
                              a.reply.request.error == b.answer.request.error)))
            && (a.reply.Send? && Refuses(a.reply.request) && (s.algo == 0 || m.algorithm == Some(s.algo)) ==>
                  b.answer.Reply? && Refuses(b.answer.request))
  {
    DecodeAlike(frame, cfg);
    hide DecodeOf, J.DecodeMessageOf, P.Joined;
  }

  lemma {:induction false} FoldedHeuristics(m: Msg, b: Bytes)
    requires Fold(m, b).Ok? && (m.heur.Some? ==> 1 <= m.heur.value <= 2)
    ensures Fold(m, b).value.heur.Some? ==> 1 <= Fold(m, b).value.heur.value <= 2
    decreases |b|
  {
    match Tlv.NextOf(b)
    case Item(e, rest) =>
      AppliedHeuristics(m, e);
      FoldedHeuristics(Apply(m, e).value, rest);
    case _ =>
  }

  lemma AppliedHeuristics(m: Msg, e: Tlv.Entry)
    requires Apply(m, e).Ok? && (m.heur.Some? ==> 1 <= m.heur.value <= 2)
    ensures Apply(m, e).value.heur.Some? ==> 1 <= Apply(m, e).value.heur.value <= 2
  {
    hide DecodeNode;
  }

  lemma DecodedHeuristics(frame: Bytes, max: nat)
    requires DecodeOf(frame, max).Ok?
    ensures var h := DecodeOf(frame, max).value.heur; h.Some? ==> 1 <= h.value <= 2
  {
    var h := Check(frame, max).value;
    FoldedHeuristics(EmptyMsg(h.kind), frame[HEADER_LEN..HEADER_LEN + h.len]);
  }

  /** Active sessions of both: whatever the oracle reports as an error, the server reports the
      same; settings are answered alike, and echoes up to the reply buffer are the same bytes. */
  lemma ServiceAlike(s: P.State, c: T.Sess, env: T.Env, cfg: S.Config, o: S.State, frame: Bytes)
    requires P.Shape(s) && c.stage == T.Active && o.stage == S.Active && o.latestRing.Some?
    requires cfg.maxReceiveSize == T.RX_SIZE && DecodeOf(frame, T.RX_SIZE).Ok?
    ensures var a, b, m := T.FrameStep(s, c, frame, env), S.Handle(cfg, o, frame), DecodeOf(frame, T.RX_SIZE).value;
            && (b.answer.Reply? && b.answer.request.ServerError? ==> a.reply == T.Send(b.answer.request))
            && (m.kind == SET_OPTION ==> b.answer.Reply? && a.reply == T.Send(b.answer.request))
            && (m.kind == ECHO_REQUEST ==>
                  b.answer.Copy? && a.reply == if |frame| <= 2048 then T.Echo(b.answer.bytes) else T.Drop)
            && (m.kind == VOTE_INFO_REPLY ==> b.answer.Nothing? && a.reply.Silent?)
  {
    DecodeAlike(frame, cfg);
    DecodedHeuristics(frame, T.RX_SIZE);
    T.DecodedNodesFit(frame, T.RX_SIZE);
    hide DecodeOf, J.DecodeMessageOf, P.Recomputed, P.Refreshed, P.Answered, T.LmsDecided, T.Considered;
  }
}
