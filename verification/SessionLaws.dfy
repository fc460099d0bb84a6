/** Handshake safety over every sequence of frames, and what the answers carry. */
module SessionLaws {
  import opened Defs
  import opened Wire
  import opened Msg
  import opened JsMsg
  import opened Session
  import opened LayoutLaws
  import MsgLaws

  /** The state of a fresh session after the frames `fs`. */
  function After(cfg: Config, fs: seq<Bytes>): State {
    if fs == [] then FRESH else Handle(cfg, After(cfg, fs[..|fs| - 1]), fs[|fs| - 1]).state
  }

  function AnswerTo(cfg: Config, fs: seq<Bytes>, i: nat): Answer
    requires i < |fs|
  {
    Handle(cfg, After(cfg, fs[..i]), fs[i]).answer
  }

  // ---------- Valid handshake messages, by themselves ----------

  predicate Decodes(cfg: Config, f: Bytes) {
    DecodeMessageOf(f, cfg.maxReceiveSize).Ok?
  }

  function Decoded(cfg: Config, f: Bytes): JMsg
    requires Decodes(cfg, f)
  {
    DecodeMessageOf(f, cfg.maxReceiveSize).value
  }

  predicate ValidPreinit(cfg: Config, f: Bytes) {
    Decodes(cfg, f) && Preinits(Decoded(cfg, f))
  }

  predicate ValidStarttls(cfg: Config, f: Bytes) {
    Decodes(cfg, f) && Decoded(cfg, f).kind == STARTTLS && cfg.tlsMode != Off
  }

  predicate ValidInit(cfg: Config, f: Bytes) {
    Decodes(cfg, f) && Decoded(cfg, f).kind == INIT && InitFault(Decoded(cfg, f)) == NO_ERROR
  }

  // ---------- Active exactly after a complete handshake ----------

  predicate HasPreinit(cfg: Config, fs: seq<Bytes>) {
    exists p :: 0 <= p < |fs| && ValidPreinit(cfg, fs[p])
  }

  predicate HasTls(cfg: Config, fs: seq<Bytes>) {
    exists p, t :: 0 <= p < t < |fs| && ValidPreinit(cfg, fs[p]) && ValidStarttls(cfg, fs[t])
  }

  /** A valid PREINIT, later STARTTLS where TLS is required, later a valid INIT. */
  predicate Handshaken(cfg: Config, fs: seq<Bytes>) {
    exists k :: 0 <= k < |fs| && ValidInit(cfg, fs[k]) && HasPreinit(cfg, fs[..k])
                && (cfg.tlsMode == Req ==> HasTls(cfg, fs[..k]))
  }

  lemma PreinitGrows(cfg: Config, fs: seq<Bytes>, f: Bytes)
    ensures HasPreinit(cfg, fs + [f]) <==> HasPreinit(cfg, fs) || ValidPreinit(cfg, f)
  {
    var all := fs + [f];
    if HasPreinit(cfg, fs) {
      var p :| 0 <= p < |fs| && ValidPreinit(cfg, fs[p]);
      assert all[p] == fs[p];
    }
    if ValidPreinit(cfg, f) { assert all[|fs|] == f; }
  }

  lemma TlsGrows(cfg: Config, fs: seq<Bytes>, f: Bytes)
    ensures HasTls(cfg, fs + [f]) <==> HasTls(cfg, fs) || (HasPreinit(cfg, fs) && ValidStarttls(cfg, f))
  {
    var all := fs + [f];
    if HasTls(cfg, fs) {
      var p, t :| 0 <= p < t < |fs| && ValidPreinit(cfg, fs[p]) && ValidStarttls(cfg, fs[t]);
      assert all[p] == fs[p] && all[t] == fs[t];
    } else if HasPreinit(cfg, fs) && ValidStarttls(cfg, f) {
      var p :| 0 <= p < |fs| && ValidPreinit(cfg, fs[p]);
      assert all[p] == fs[p] && all[|fs|] == f;
    }
  }

  lemma HandshakeGrows(cfg: Config, fs: seq<Bytes>, f: Bytes)
    ensures Handshaken(cfg, fs + [f]) <==>
            Handshaken(cfg, fs)
            || (ValidInit(cfg, f) && HasPreinit(cfg, fs) && (cfg.tlsMode == Req ==> HasTls(cfg, fs)))
  {
    var all := fs + [f];
    assert all[..|fs|] == fs && all[|fs|] == f;
    forall k | 0 <= k < |fs|
      ensures all[..k] == fs[..k] && all[k] == fs[k]
    {}
  }

  ghost predicate Progress(cfg: Config, fs: seq<Bytes>, s: State) {
    && s.stage != Closed
    && (s.stage == Connected <==> !HasPreinit(cfg, fs))
    && (s.stage == Active <==> Handshaken(cfg, fs))
    && (s.stage != Active ==> (s.tlsUpgraded <==> HasTls(cfg, fs)))
  }

  lemma HandleProgress(cfg: Config, s: State, f: Bytes)
    requires s.stage != Closed
    ensures var s' := Handle(cfg, s, f).state;
            && s'.stage != Closed
            && (s'.stage == Connected <==> s.stage == Connected && !ValidPreinit(cfg, f))
            && (s'.stage == Active <==>
                s.stage == Active
                || (s.stage != Connected && ValidInit(cfg, f) && (cfg.tlsMode == Req ==> s.tlsUpgraded)))
            && (s.stage != Active ==>
                  (s'.tlsUpgraded <==> s.tlsUpgraded || (s.stage != Connected && ValidStarttls(cfg, f))))
  {
    hide DecodeMessageOf;
    if Decodes(cfg, f) { DecodedHasHeader(f, cfg.maxReceiveSize); }
  }

  lemma {:induction false} Progresses(cfg: Config, fs: seq<Bytes>)
    ensures Progress(cfg, fs, After(cfg, fs))
  {
    hide Handle, ValidPreinit, ValidStarttls, ValidInit;
    if fs != [] {
      var front, f := fs[..|fs| - 1], fs[|fs| - 1];
      assert fs == front + [f];
      Progresses(cfg, front);
      HandleProgress(cfg, After(cfg, front), f);
      PreinitGrows(cfg, front, f);
      TlsGrows(cfg, front, f);
      HandshakeGrows(cfg, front, f);
    }
  }

  /** A session is active exactly when it received a valid PREINIT, then STARTTLS if TLS is
      required, then a valid INIT -- whatever else came before, between or after. */
  lemma ActiveExactly(cfg: Config, fs: seq<Bytes>)
    ensures After(cfg, fs).stage == Active <==> Handshaken(cfg, fs)
    ensures After(cfg, fs).stage != Closed
  {
    Progresses(cfg, fs);
  }

  // ---------- Errors change nothing ----------

  predicate IsError(a: Answer) {
    a.Reply? && (a.request.ServerError? || (a.request.InitReply? && a.request.error != NO_ERROR))
  }

  lemma ErrorsChangeNothing(cfg: Config, s: State, f: Bytes)
    ensures IsError(Handle(cfg, s, f).answer) ==> Handle(cfg, s, f).state == s
    ensures Handle(cfg, s, f).answer.Misuse? <==> s.stage == Closed
    ensures !Decodes(cfg, f) && s.stage != Closed ==>
              Handle(cfg, s, f) == Handled(s, Reply(ServerError(None, ERROR_DECODING)))
  {
    hide DecodeMessageOf;
    if Decodes(cfg, f) { DecodedHasHeader(f, cfg.maxReceiveSize); }
  }

  // ---------- What an answer carries ----------

  /** Every answer repeats the number and the settings of its request, is of the reply type of
      the request or an error, and votes as the oracle was told to; an echo differs in its
      type only. */
  lemma AnswersMatch(cfg: Config, s: State, f: Bytes)
    requires Decodes(cfg, f) && s.stage != Closed
    ensures var a, m := Handle(cfg, s, f).answer, Decoded(cfg, f);
            && (a.Reply? ==>
                  && var said := MsgLaws.Arguments(a.request);
                     said.sn == m.sn && (said.kind == SERVER_ERROR || said.kind == m.kind + 1)
                     && (said.vote.Some? ==> said.vote == Some(cfg.fixedVote))
                     && (said.kind == ASK_FOR_VOTE_REPLY || said.kind == HEURISTICS_CHANGE_REPLY ==>
                           said.ring == Some(Ring(if s.nodeId.Some? then s.nodeId.value else 0, 0)))
                     && (said.kind == NODE_LIST_REPLY ==> said.listType == m.listType)
                     && (said.kind == HEURISTICS_CHANGE_REPLY ==> said.heur == m.heuristics)
                     && (said.kind == SET_OPTION_REPLY ==>
                           said.heartbeat == m.heartbeatInterval && said.kap == m.kapTb))
            && (a.Copy? ==>
                  |a.bytes| == |f| && a.bytes[2..] == f[2..]
                  && Weigh(a.bytes[..2]) == m.kind + 1 && m.kind == ECHO_REQUEST)
            && (a.Nothing? ==> m.kind == STARTTLS || m.kind == VOTE_INFO_REPLY)
  {
    hide DecodeMessageOf, Weigh, Put16, InitFault;
    DecodedHasHeader(f, cfg.maxReceiveSize);
    BigEndian16(ECHO_REPLY, []);
    assert (Put16(ECHO_REPLY) + f[2..])[..2] == Put16(ECHO_REPLY);
  }

  /** The handshake replies announce the TLS mode as 0 (off), 1 (on) or 2 (required), whether a
      certificate is needed, the size limits and the two algorithms. */
  lemma HandshakeAnnounces(cfg: Config, s: State, f: Bytes)
    requires Decodes(cfg, f) && s.stage != Closed && Handle(cfg, s, f).answer.Reply?
    ensures var said := MsgLaws.Arguments(Handle(cfg, s, f).answer.request);
            && (said.kind == PREINIT_REPLY ==>
                  && said.tls == Some(if cfg.tlsMode == Off then 0 else if cfg.tlsMode == On then 1 else 2)
                  && said.certReq == Some(if cfg.certRequired then 1 else 0))
            && (said.kind == INIT_REPLY ==>
                  said.maxReq == Some(cfg.maxReceiveSize) && said.maxRep == Some(cfg.maxSendSize)
                  && said.supAlgos == [1, 3])
  {
    hide DecodeMessageOf;
    DecodedHasHeader(f, cfg.maxReceiveSize);
  }

  /** An INIT is answered with success exactly when TLS is up where required, the node,
      algorithm, tie-breaker and ring are given and the heartbeat is within a second and two
      minutes. */
  lemma InitExactly(cfg: Config, s: State, f: Bytes)
    requires Decodes(cfg, f) && Decoded(cfg, f).kind == INIT && (s.stage == PreinitDone || s.stage == TlsUpgraded)
    ensures var h, m := Handle(cfg, s, f), Decoded(cfg, f);
            && (h.answer.Reply? && h.answer.request.InitReply? && h.answer.request.error == 0 <==>
                  && (cfg.tlsMode == Req ==> s.tlsUpgraded)
                  && m.nodeId.Some? && m.nodeId.value != 0 && m.tieBreaker.Some? && m.ringId.Some?
                  && (m.algorithm == Some(ALGO_FFSPLIT) || m.algorithm == Some(ALGO_LMS))
                  && m.heartbeatInterval.Some? && 1000 <= m.heartbeatInterval.value <= 120000)
            && (h.state.stage == Active <==>
                  h.answer.Reply? && h.answer.request.InitReply? && h.answer.request.error == 0)
            && (h.state.stage == Active ==> h.state.nodeId == m.nodeId && h.state.latestRing == m.ringId)
  {
    hide DecodeMessageOf;
  }

  // ---------- The ring of a node list reply ----------

  /** The ring frame `i` brought, if it is an INIT or node list that was accepted. */
  function RingGiven(cfg: Config, fs: seq<Bytes>, i: nat): Option<Ring>
    requires i < |fs|
  {
    var a := AnswerTo(cfg, fs, i);
    if Decodes(cfg, fs[i]) && a.Reply?
       && (a.request.NodeListReply? || (a.request.InitReply? && a.request.error == NO_ERROR))
    then Decoded(cfg, fs[i]).ringId else None
  }

  /** Among the first `n` frames, frame `j` is the last that brought a ring, and it is `r`. */
  predicate LastRing(cfg: Config, fs: seq<Bytes>, n: nat, j: nat, r: Ring)
    requires j < n <= |fs|
  {
    RingGiven(cfg, fs, j) == Some(r) && forall i :: j < i < n ==> RingGiven(cfg, fs, i) == None
  }

  lemma GivenByPrefix(cfg: Config, fs: seq<Bytes>, n: nat, i: nat)
    requires i < n <= |fs|
    ensures RingGiven(cfg, fs[..n], i) == RingGiven(cfg, fs, i)
  {
    assert fs[..n][..i] == fs[..i];
  }

  ghost predicate RingTracked(cfg: Config, fs: seq<Bytes>, s: State) {
    match s.latestRing
    case None => s.stage != Active && forall i :: 0 <= i < |fs| ==> RingGiven(cfg, fs, i) == None
    case Some(r) => exists j :: 0 <= j < |fs| && LastRing(cfg, fs, |fs|, j, r)
  }

  lemma HandleRing(cfg: Config, s: State, f: Bytes)
    requires s.stage != Closed && (s.stage == Active ==> s.latestRing.Some?)
    ensures var h := Handle(cfg, s, f);
            var given := if Decodes(cfg, f) && h.answer.Reply?
                            && (h.answer.request.NodeListReply?
                                || (h.answer.request.InitReply? && h.answer.request.error == NO_ERROR))
                         then Decoded(cfg, f).ringId else None;
            && h.state.latestRing == (if given.Some? then given else s.latestRing)
            && (h.answer.Reply? && h.answer.request.NodeListReply? ==>
                  h.state.latestRing == Some(h.answer.request.ring))
            && (h.state.stage == Active ==> h.state.latestRing.Some?)
  {
    hide DecodeMessageOf;
    if Decodes(cfg, f) { DecodedHasHeader(f, cfg.maxReceiveSize); }
  }

  lemma {:induction false} RingsTracked(cfg: Config, fs: seq<Bytes>)
    ensures RingTracked(cfg, fs, After(cfg, fs)) && After(cfg, fs).stage != Closed
  {
    hide Handle, Decodes;
    if fs != [] {
      var n := |fs| - 1;
      var front, f := fs[..n], fs[n];
      var s, s' := After(cfg, front), After(cfg, fs);
      RingsTracked(cfg, front);
      HandleRing(cfg, s, f);
      ActiveExactly(cfg, fs);
      forall i | 0 <= i < n
        ensures RingGiven(cfg, front, i) == RingGiven(cfg, fs, i)
      {
        GivenByPrefix(cfg, fs, n, i);
      }
      if RingGiven(cfg, fs, n).Some? {
        assert LastRing(cfg, fs, |fs|, n, s'.latestRing.value);
      } else if s.latestRing.Some? {
        var j :| 0 <= j < n && LastRing(cfg, front, n, j, s.latestRing.value);
        assert LastRing(cfg, fs, |fs|, j, s.latestRing.value);
      }
    }
  }

  /** Every NODE_LIST_REPLY carries the ring of the current list if it has one, else the
      latest accepted ring, starting from INIT. */
  lemma ReplyCarriesLatestRing(cfg: Config, fs: seq<Bytes>, k: nat) returns (j: nat)
    requires k < |fs| && AnswerTo(cfg, fs, k).Reply? && AnswerTo(cfg, fs, k).request.NodeListReply?
    ensures j <= k && LastRing(cfg, fs, k + 1, j, AnswerTo(cfg, fs, k).request.ring)
  {
    hide Handle, Decodes;
    var upTo := fs[..k + 1];
    assert upTo[..k] == fs[..k] && upTo[|upTo| - 1] == fs[k];
    RingsTracked(cfg, fs[..k]);
    RingsTracked(cfg, upTo);
    HandleRing(cfg, After(cfg, fs[..k]), fs[k]);
    var ring := AnswerTo(cfg, fs, k).request.ring;
    j :| 0 <= j < |upTo| && LastRing(cfg, upTo, |upTo|, j, ring);
    forall i | 0 <= i <= k
      ensures RingGiven(cfg, upTo, i) == RingGiven(cfg, fs, i)
    {
      GivenByPrefix(cfg, fs, k + 1, i);
    }
    assert LastRing(cfg, fs, k + 1, j, ring);
  }
}
