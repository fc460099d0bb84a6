/** The socket side of the test oracle (host/src/net.js): frames are reassembled from
    `data` events of any size and handed to the session. */
module Net {
  import opened Defs
  import opened Wire
  import opened Msg
  import opened Session

  // ---------- Specification ----------

  datatype Head = Wait | Bad | Whole(frame: Bytes, rest: Bytes)

  /** What the buffered bytes start with: too little, a bad header, or a whole frame. */
  function HeadOf(b: Bytes, max: nat): (r: Head)
    ensures r.Whole? ==> |r.rest| < |b| && r.frame + r.rest == b
  {
    if |b| < HEADER_LEN then Wait
    else
      var kind, len := Get16(b[0..2]), Get32(b[2..6]);
      if kind > TYPE_MAX || HEADER_LEN + len > max then Bad
      else if |b| < HEADER_LEN + len then Wait
      else Whole(b[..HEADER_LEN + len], b[HEADER_LEN + len..])
  }

  /** One connection: its session, the bytes not consumed yet, whether the transport was
      destroyed, and the record of frames handed over and replies written. */
  datatype Peer = Peer(sess: State, acc: Bytes, dead: bool, handed: seq<Bytes>, written: seq<Answer>)

  const OPENED: Peer := Peer(FRESH, [], false, [], [])

  function Killed(p: Peer): Peer {
    p.(dead := true, sess := p.sess.(stage := Closed))
  }

  function Spoken(a: Answer): seq<Answer> {
    if a.Nothing? || a.Misuse? then [] else [a]
  }

  /** The loop of the `data` handler. */
  function Consume(cfg: Config, p: Peer): Peer
    decreases |p.acc|
  {
    match HeadOf(p.acc, cfg.maxReceiveSize)
    case Wait => p
    case Bad => Killed(p)
    case Whole(frame, rest) =>
      var h := Handle(cfg, p.sess, frame);
      var p' := p.(sess := h.state, acc := rest, handed := p.handed + [frame]);
      if h.answer.Misuse? || h.state.stage == Closed then Killed(p')
      else Consume(cfg, p'.(written := p.written + Spoken(h.answer)))
  }

  function Received(cfg: Config, p: Peer, chunk: Bytes): Peer {
    if p.dead then p else Consume(cfg, p.(acc := p.acc + chunk))
  }

  // ---------- The code ----------

  class Connection {
    const session: QnetSession
    var acc: Bytes
    var dead: bool
    ghost var handed: seq<Bytes>
    ghost var written: seq<Answer>

    ghost function View(): Peer
      reads this, session
    {
      Peer(session.View(), acc, dead, handed, written)
    }

    constructor (cfg: Config, nowMs: int)
      ensures fresh(session) && session.cfg == cfg && View() == OPENED
    {
      session := new QnetSession(cfg, nowMs);
      acc, dead, handed, written := [], false, [], [];
    }

    /** Destroy the transport, once. */
    method Kill()
      modifies this`dead, session
      ensures View() == if old(dead) then old(View()) else Killed(old(View()))
    {
      if dead {
        return;
      }
      dead := true;
      session.Close();
    }

    /** The `error` event of the socket. */
    method OnError()
      modifies this`dead, session
      ensures View() == if old(dead) then old(View()) else Killed(old(View()))
    {
      Kill();
    }

    /** The `close` event: the session ends, the handler itself is not told. */
    method OnClose()
      modifies session
      ensures View() == old(View()).(sess := old(session.View()).(stage := Closed))
    {
      session.Close();
    }

    /** One `data` event. */
    method OnData(chunk: Bytes, nowMs: int)
      modifies this, session
      ensures View() == Received(session.cfg, old(View()), chunk)
    {
      hide Handle;
      if dead {
        return;
      }
      acc := acc + chunk;
      ghost var goal := Consume(session.cfg, View());
      while true
        invariant !dead && Consume(session.cfg, View()) == goal
        decreases |acc|
      {
        if |acc| < HEADER_LEN {
          return;
        }
        var kind, len := Get16(acc[0..2]), Get32(acc[2..6]);
        if kind > TYPE_MAX || HEADER_LEN + len > session.cfg.maxReceiveSize {
          Kill();
          return;
        }
        if |acc| < HEADER_LEN + len {
          return;
        }
        var frame := acc[..HEADER_LEN + len];
        acc := acc[HEADER_LEN + len..];
        handed := handed + [frame];
        var answer := session.HandleFrame(frame, nowMs);
        if answer.Misuse? || session.stage == Closed {
          Kill();
          return;
        }
        written := written + Spoken(answer);
      }
    }
  }
}
