/** The handshake session of the test oracle (host/src/session.js): a state machine over
    complete frames with a TLS policy and a ring fallback. */
module Session {
  import opened Defs
  import opened Wire
  import opened Msg
  import opened JsMsg

  const HEARTBEAT_MIN: u32 := 1000
  const HEARTBEAT_MAX: u32 := 120000

  // Reply error codes.
  const NO_ERROR: u16 := 0
  const TLS_REQUIRED: u16 := 3
  const UNSUPPORTED_MESSAGE: u16 := 4
  const PREINIT_REQUIRED: u16 := 6
  const MISSING_OPTION: u16 := 7
  const UNEXPECTED_MESSAGE: u16 := 8
  const ERROR_DECODING: u16 := 9
  const INIT_REQUIRED: u16 := 11
  const UNSUPPORTED_ALGORITHM: u16 := 12
  const INVALID_HEARTBEAT: u16 := 13

  datatype TlsMode = On | Off | Req

  datatype Config = Config(tlsMode: TlsMode, certRequired: bool, fixedVote: u8, maxReceiveSize: u32, maxSendSize: u32)

  datatype Stage = Connected | PreinitDone | TlsUpgraded | Active | Closed

  datatype State = State(
    stage: Stage, tlsUpgraded: bool, clusterName: Option<Bytes>,
    nodeId: Option<u32>, algorithm: Option<u16>, heartbeatInterval: Option<u32>,
    initRing: Option<Ring>, latestRing: Option<Ring>)

  const FRESH: State := State(Connected, false, None, None, None, None, None, None)

  datatype Answer = Nothing | Reply(request: Request) | Copy(bytes: Bytes) | Misuse

  datatype Handled = Handled(state: State, answer: Answer)

  // ---------- Specification ----------

  function ErrorReply(m: JMsg, code: u16): Answer {
    Reply(ServerError(m.sn, code))
  }

  function AdvertisedTls(cfg: Config): u8 {
    match cfg.tlsMode case Off => 0 case Req => 2 case On => 1
  }

  predicate Preinits(m: JMsg) {
    m.kind == PREINIT && m.clusterName.Some? && |m.clusterName.value| > 0
  }

  function Connecting(cfg: Config, s: State, m: JMsg): Handled {
    if m.kind != PREINIT then Handled(s, ErrorReply(m, PREINIT_REQUIRED))
    else if !Preinits(m) then Handled(s, ErrorReply(m, MISSING_OPTION))
    else Handled(s.(clusterName := m.clusterName, stage := PreinitDone),
                 Reply(PreinitReply(m.sn, AdvertisedTls(cfg), if cfg.certRequired then 1 else 0)))
  }

  /** The code `validateInit` throws, or NO_ERROR. */
  function InitFault(m: JMsg): u16 {
    if m.nodeId == None || m.nodeId == Some(0) then MISSING_OPTION
    else if m.algorithm != Some(ALGO_FFSPLIT) && m.algorithm != Some(ALGO_LMS) then UNSUPPORTED_ALGORITHM
    else if m.heartbeatInterval == None || m.heartbeatInterval.value < HEARTBEAT_MIN
            || m.heartbeatInterval.value > HEARTBEAT_MAX then INVALID_HEARTBEAT
    else if m.tieBreaker == None || m.ringId == None then MISSING_OPTION
    else NO_ERROR
  }

  function InitReplyWith(cfg: Config, m: JMsg, code: u16): Answer {
    Reply(InitReply(m.sn, code, cfg.maxReceiveSize, cfg.maxSendSize, [ALGO_FFSPLIT, ALGO_LMS]))
  }

  function Initialising(cfg: Config, s: State, m: JMsg): Handled {
    if m.kind == STARTTLS then
      if cfg.tlsMode == Off then Handled(s, ErrorReply(m, UNSUPPORTED_MESSAGE))
      else Handled(s.(tlsUpgraded := true, stage := TlsUpgraded), Nothing)
    else if m.kind != INIT then Handled(s, ErrorReply(m, INIT_REQUIRED))
    else if cfg.tlsMode == Req && !s.tlsUpgraded then Handled(s, ErrorReply(m, TLS_REQUIRED))
    else if InitFault(m) != NO_ERROR then Handled(s, InitReplyWith(cfg, m, InitFault(m)))
    else Handled(s.(nodeId := m.nodeId, algorithm := m.algorithm, heartbeatInterval := m.heartbeatInterval,
                    initRing := m.ringId, latestRing := m.ringId, stage := Active),
                 InitReplyWith(cfg, m, NO_ERROR))
  }

  function OwnRing(nodeId: Option<u32>): Ring {
    Ring(if nodeId.Some? then nodeId.value else 0, 0)
  }

  function Serving(cfg: Config, s: State, m: JMsg, frame: Bytes): Handled
    requires |frame| >= HEADER_LEN
  {
    if m.kind == ECHO_REQUEST then Handled(s, Copy(Put16(ECHO_REPLY) + frame[2..]))
    else if m.kind == NODE_LIST then
      var ring := if m.ringId.Some? then m.ringId else s.latestRing;
      if m.sn == None || m.listType == None || ring == None then Handled(s, ErrorReply(m, MISSING_OPTION))
      else Handled(s.(latestRing := ring),
                   Reply(NodeListReply(m.sn.value, m.listType.value, ring.value, cfg.fixedVote)))
    else if m.kind == ASK_FOR_VOTE then
      if m.sn == None then Handled(s, ErrorReply(m, MISSING_OPTION))
      else Handled(s, Reply(AskForVoteReply(m.sn.value, cfg.fixedVote, OwnRing(s.nodeId))))
    else if m.kind == HEURISTICS_CHANGE then
      if m.sn == None || m.heuristics == None then Handled(s, ErrorReply(m, MISSING_OPTION))
      else if m.heuristics.value != HEUR_PASS && m.heuristics.value != HEUR_FAIL
      then Handled(s, ErrorReply(m, ERROR_DECODING))
      else Handled(s, Reply(HeuristicsChangeReply(m.sn.value, cfg.fixedVote, OwnRing(s.nodeId), m.heuristics.value)))
    else if m.kind == SET_OPTION then Handled(s, Reply(SetOptionReply(m.sn, m.heartbeatInterval, m.kapTb)))
    else if m.kind == VOTE_INFO_REPLY then Handled(s, Nothing)
    else Handled(s, ErrorReply(m, UNEXPECTED_MESSAGE))
  }

  /** `handle`: one complete frame. */
  function Handle(cfg: Config, s: State, frame: Bytes): Handled {
    if s.stage == Closed then Handled(s, Misuse)
    else
      match DecodeMessageOf(frame, cfg.maxReceiveSize)
      case Err(_) => Handled(s, Reply(ServerError(None, ERROR_DECODING)))
      case Ok(m) =>
        match s.stage
        case Connected => Connecting(cfg, s, m)
        case Active => Serving(cfg, s, m, frame)
        case _ => Initialising(cfg, s, m)
  }

  // ---------- The code ----------

  class QnetSession {
    const cfg: Config
    var stage: Stage
    var tlsUpgraded: bool
    var clusterName: Option<Bytes>
    var nodeId: Option<u32>
    var algorithm: Option<u16>
    var heartbeatInterval: Option<u32>
    var initRingId: Option<Ring>
    var latestRingId: Option<Ring>
    var lastActivityMs: int

    ghost function View(): State
      reads this
    {
      State(stage, tlsUpgraded, clusterName, nodeId, algorithm, heartbeatInterval, initRingId, latestRingId)
    }

    constructor (cfg: Config, nowMs: int)
      ensures this.cfg == cfg && View() == FRESH && lastActivityMs == nowMs
    {
      this.cfg := cfg;
      stage, tlsUpgraded, clusterName := Connected, false, None;
      nodeId, algorithm, heartbeatInterval := None, None, None;
      initRingId, latestRingId, lastActivityMs := None, None, nowMs;
    }

    method Close()
      modifies this`stage
      ensures View() == old(View()).(stage := Closed)
    {
      stage := Closed;
    }

    method OnConnected(m: JMsg) returns (answer: Answer)
      modifies this`stage, this`clusterName
      ensures Handled(View(), answer) == Connecting(cfg, old(View()), m)
    {
      if m.kind != PREINIT {
        return ErrorReply(m, PREINIT_REQUIRED);
      }
      if m.clusterName == None || |m.clusterName.value| == 0 {
        return ErrorReply(m, MISSING_OPTION);
      }
      clusterName := m.clusterName;
      stage := PreinitDone;
      return Reply(PreinitReply(m.sn, AdvertisedTls(cfg), if cfg.certRequired then 1 else 0));
    }

    method OnPreinitDone(m: JMsg) returns (answer: Answer)
      modifies this
      ensures Handled(View(), answer) == Initialising(cfg, old(View()), m)
      ensures lastActivityMs == old(lastActivityMs)
    {
      if m.kind == STARTTLS {
        if cfg.tlsMode == Off {
          return ErrorReply(m, UNSUPPORTED_MESSAGE);
        }
        tlsUpgraded := true;
        stage := TlsUpgraded;
        return Nothing;
      }
      if m.kind != INIT {
        return ErrorReply(m, INIT_REQUIRED);
      }
      if cfg.tlsMode == Req && !tlsUpgraded {
        return ErrorReply(m, TLS_REQUIRED);
      }
      var fault := InitFault(m);
      if fault != NO_ERROR {
        return InitReplyWith(cfg, m, fault);
      }
      nodeId := m.nodeId;
      algorithm := m.algorithm;
      heartbeatInterval := m.heartbeatInterval;
      initRingId := m.ringId;
      latestRingId := initRingId;
      stage := Active;
      return InitReplyWith(cfg, m, NO_ERROR);
    }

    method OnNodeList(m: JMsg) returns (answer: Answer)
      modifies this`latestRingId
      ensures m.kind == NODE_LIST ==>
                forall frame: Bytes :: |frame| >= HEADER_LEN ==>
                  Handled(View(), answer) == Serving(cfg, old(View()), m, frame)
    {
      var ring := if m.ringId.Some? then m.ringId else latestRingId;
      if m.sn == None || m.listType == None || ring == None {
        return ErrorReply(m, MISSING_OPTION);
      }
      if m.ringId.Some? {
        latestRingId := m.ringId;
      }
      return Reply(NodeListReply(m.sn.value, m.listType.value, ring.value, cfg.fixedVote));
    }

    method OnActive(m: JMsg, frame: Bytes) returns (answer: Answer)
      requires |frame| >= HEADER_LEN
      modifies this`latestRingId
      ensures Handled(View(), answer) == Serving(cfg, old(View()), m, frame)
    {
      if m.kind == ECHO_REQUEST {
        return Copy(Put16(ECHO_REPLY) + frame[2..]);
      } else if m.kind == NODE_LIST {
        answer := OnNodeList(m);
      } else if m.kind == ASK_FOR_VOTE {
        if m.sn == None {
          return ErrorReply(m, MISSING_OPTION);
        }
        return Reply(AskForVoteReply(m.sn.value, cfg.fixedVote, OwnRing(nodeId)));
      } else if m.kind == HEURISTICS_CHANGE {
        if m.sn == None || m.heuristics == None {
          return ErrorReply(m, MISSING_OPTION);
        }
        if m.heuristics.value != HEUR_PASS && m.heuristics.value != HEUR_FAIL {
          return ErrorReply(m, ERROR_DECODING);
        }
        return Reply(HeuristicsChangeReply(m.sn.value, cfg.fixedVote, OwnRing(nodeId), m.heuristics.value));
      } else if m.kind == SET_OPTION {
        return Reply(SetOptionReply(m.sn, m.heartbeatInterval, m.kapTb));
      } else if m.kind == VOTE_INFO_REPLY {
        return Nothing;
      } else {
        return ErrorReply(m, UNEXPECTED_MESSAGE);
      }
    }

    /** Handle one complete frame; `Misuse` stands for the exception on a closed session. */
    method HandleFrame(frame: Bytes, nowMs: int) returns (answer: Answer)
      modifies this
      ensures Handled(View(), answer) == Handle(cfg, old(View()), frame)
      ensures lastActivityMs == if old(stage) != Closed && DecodeMessageOf(frame, cfg.maxReceiveSize).Ok?
                                then nowMs else old(lastActivityMs)
    {
      hide DecodeMessageOf, Connecting, Initialising, Serving;
      if stage == Closed {
        return Misuse;
      }
      var d := DecodeMessage(frame, cfg.maxReceiveSize);
      if d.Err? {
        return Reply(ServerError(None, ERROR_DECODING));
      }
      lastActivityMs := nowMs;
      DecodedHasHeader(frame, cfg.maxReceiveSize);
      if stage == Connected {
        answer := OnConnected(d.value);
      } else if stage == Active {
        answer := OnActive(d.value, frame);
      } else {
        answer := OnPreinitDone(d.value);
      }
    }
  }

  lemma DecodedHasHeader(frame: Bytes, max: nat)
    requires DecodeMessageOf(frame, max).Ok?
    ensures |frame| >= HEADER_LEN
  {}
}
