/** Frames sent one after the other come out again, and how the byte stream is cut into
    `data` events does not matter. */
module NetLaws {
  import opened Defs
  import opened Wire
  import opened Msg
  import opened Session
  import opened SessionLaws
  import opened LayoutLaws
  import opened Net

  // ---------- A parser for the whole stream ----------

  datatype Split = Split(frames: seq<Bytes>, rest: Bytes, bad: bool)

  /** The frames of a complete stream, up to a bad header or an unfinished frame. */
  function SplitStream(b: Bytes, max: nat): Split
    decreases |b|
  {
    match HeadOf(b, max)
    case Wait => Split([], b, false)
    case Bad => Split([], b, true)
    case Whole(frame, rest) =>
      var s := SplitStream(rest, max);
      Split([frame] + s.frames, s.rest, s.bad)
  }

  function Joined(chunks: seq<Bytes>): Bytes {
    if chunks == [] then [] else Joined(chunks[..|chunks| - 1]) + chunks[|chunks| - 1]
  }

  /** The replies of a fresh session to the frames `fs`, in order. */
  function Replies(cfg: Config, fs: seq<Bytes>): seq<Answer> {
    if fs == [] then []
    else Replies(cfg, fs[..|fs| - 1]) + Spoken(Handle(cfg, After(cfg, fs[..|fs| - 1]), fs[|fs| - 1]).answer)
  }

  function Fed(cfg: Config, chunks: seq<Bytes>): Peer {
    if chunks == [] then OPENED else Received(cfg, Fed(cfg, chunks[..|chunks| - 1]), chunks[|chunks| - 1])
  }

  // ---------- What a frame is ----------

  /** A complete frame of a known type within the limit, by its bytes. */
  predicate Framed(f: Bytes, max: nat) {
    6 <= |f| <= max && Weigh(f[..2]) <= 17 && Weigh(f[2..6]) == |f| - 6
  }

  function Concatenated(fs: seq<Bytes>): Bytes {
    if fs == [] then [] else fs[0] + Concatenated(fs[1..])
  }

  lemma FramedHead(f: Bytes, tail: Bytes, max: nat)
    requires Framed(f, max)
    ensures HeadOf(f + tail, max) == Whole(f, tail)
  {
    hide Weigh, Get16, Get32;
    var b := f + tail;
    BigEndian16(0, f[..2]);
    BigEndian32(0, f[2..6]);
    assert b[0..2] == f[..2] && b[2..6] == f[2..6] && b[..|f|] == f && b[|f|..] == tail;
  }

  /** A stream of frames, the last perhaps cut short, splits into exactly those frames. */
  lemma {:induction false} FramesComeBack(fs: seq<Bytes>, tail: Bytes, max: nat)
    requires forall f :: f in fs ==> Framed(f, max)
    requires |tail| < 6
             || (Weigh(tail[..2]) <= 17 && 6 + Weigh(tail[2..6]) <= max && |tail| < 6 + Weigh(tail[2..6]))
    ensures SplitStream(Concatenated(fs) + tail, max) == Split(fs, tail, false)
  {
    if fs == [] {
      UnfinishedWaits(tail, max);
      assert [] + tail == tail;
    } else {
      var rest := Concatenated(fs[1..]);
      assert fs[0] + rest + tail == fs[0] + (rest + tail);
      FramedHead(fs[0], rest + tail, max);
      FramesComeBack(fs[1..], tail, max);
      hide HeadOf;
      assert [fs[0]] + fs[1..] == fs;
    }
  }

  lemma UnfinishedWaits(b: Bytes, max: nat)
    requires |b| < 6 || (Weigh(b[..2]) <= 17 && 6 + Weigh(b[2..6]) <= max && |b| < 6 + Weigh(b[2..6]))
    ensures HeadOf(b, max) == Wait
  {
    hide Weigh, Get16, Get32;
    if |b| >= 6 {
      assert b[0..2] == b[..2];
      BigEndian16(0, b[..2]);
      BigEndian32(0, b[2..6]);
    }
  }

  /** The stream is given up exactly at a header of unknown type or beyond the limit. */
  lemma BadExactly(b: Bytes, max: nat)
    ensures HeadOf(b, max).Bad? <==> |b| >= 6 && (Weigh(b[..2]) > 17 || 6 + Weigh(b[2..6]) > max)
  {
    hide Weigh, Get16, Get32;
    if |b| >= 6 {
      assert b[0..2] == b[..2];
      BigEndian16(0, b[..2]);
      BigEndian32(0, b[2..6]);
    }
  }

  // ---------- Appending bytes ----------

  lemma HeadAppend(a: Bytes, b: Bytes, max: nat)
    ensures HeadOf(a, max).Bad? ==> HeadOf(a + b, max).Bad?
    ensures HeadOf(a, max).Whole? ==> HeadOf(a + b, max) == Whole(HeadOf(a, max).frame, HeadOf(a, max).rest + b)
  {
    if |a| >= HEADER_LEN {
      assert (a + b)[0..2] == a[0..2] && (a + b)[2..6] == a[2..6];
      var n := HEADER_LEN + Get32(a[2..6]);
      if |a| >= n {
        assert (a + b)[..n] == a[..n] && (a + b)[n..] == a[n..] + b;
      }
    }
  }

  lemma SplitStep(b: Bytes, max: nat)
    ensures var h := HeadOf(b, max);
            SplitStream(b, max)
            == if h.Whole? then Before([h.frame], SplitStream(h.rest, max)) else Split([], b, h.Bad?)
  {}

  function Before(fs: seq<Bytes>, s: Split): Split {
    s.(frames := fs + s.frames)
  }

  lemma BeforeTwice(a: seq<Bytes>, b: seq<Bytes>, s: Split)
    ensures Before(a, Before(b, s)) == Before(a + b, s) && Before([], s) == s
  {
    assert a + (b + s.frames) == (a + b) + s.frames && [] + s.frames == s.frames;
  }

  lemma {:induction false} SplitAppend(a: Bytes, b: Bytes, max: nat)
    ensures var s, t := SplitStream(a, max), SplitStream(a + b, max);
            if s.bad then t.frames == s.frames && t.bad
            else t == Before(s.frames, SplitStream(s.rest + b, max))
    decreases |a|
  {
    HeadAppend(a, b, max);
    SplitStep(a, max);
    SplitStep(a + b, max);
    var h := HeadOf(a, max);
    hide SplitStream, HeadOf;
    if h.Wait? {
      BeforeTwice([], [], SplitStream(a + b, max));
    } else if h.Whole? {
      SplitAppend(h.rest, b, max);
      var s := SplitStream(h.rest, max);
      BeforeTwice([h.frame], s.frames, SplitStream(s.rest + b, max));
    }
  }

  // ---------- The handler follows the parser ----------

  /** The peer after the frames `fs`, with `rest` still buffered. */
  ghost predicate Follows(cfg: Config, p: Peer, s: Split) {
    && p.handed == s.frames && p.written == Replies(cfg, s.frames) && p.dead == s.bad
    && p.sess == (if s.bad then After(cfg, s.frames).(stage := Closed) else After(cfg, s.frames))
    && (!s.bad ==> p.acc == s.rest)
  }

  /** The peer once `frame` was handed over and answered. */
  function Taken(cfg: Config, p: Peer, frame: Bytes, rest: Bytes): Peer {
    var h := Handle(cfg, p.sess, frame);
    p.(sess := h.state, acc := rest, handed := p.handed + [frame], written := p.written + Spoken(h.answer))
  }

  lemma {:induction false} ConsumeFollows(cfg: Config, p: Peer)
    requires !p.dead && p.sess == After(cfg, p.handed) && p.written == Replies(cfg, p.handed)
    ensures var s := SplitStream(p.acc, cfg.maxReceiveSize);
            Follows(cfg, Consume(cfg, p), Before(p.handed, s))
    decreases |p.acc|
  {
    SplitStep(p.acc, cfg.maxReceiveSize);
    var h := HeadOf(p.acc, cfg.maxReceiveSize);
    hide Handle, HeadOf, Consume, SplitStream;
    if h.Whole? {
      var all := p.handed + [h.frame];
      assert all[..|all| - 1] == p.handed;
      ActiveExactly(cfg, p.handed);
      ActiveExactly(cfg, all);
      ErrorsChangeNothing(cfg, p.sess, h.frame);
      ConsumeFollows(cfg, Taken(cfg, p, h.frame, h.rest));
      BeforeTwice(p.handed, [h.frame], SplitStream(h.rest, cfg.maxReceiveSize));
    } else {
      assert p.handed + [] == p.handed;
    }
  }

  /** However the stream is cut into events, the frames handed to the session, the replies
      written, the session and whether the transport was destroyed are those of the whole
      stream, parsed at once. */
  lemma {:induction false} WholeStream(cfg: Config, chunks: seq<Bytes>)
    ensures Follows(cfg, Fed(cfg, chunks), SplitStream(Joined(chunks), cfg.maxReceiveSize))
  {
    hide Consume, HeadOf;
    if chunks == [] {
      assert HeadOf([], cfg.maxReceiveSize) == Wait by { EmptyWaits(cfg.maxReceiveSize); }
    } else {
      var front, last := chunks[..|chunks| - 1], chunks[|chunks| - 1];
      WholeStream(cfg, front);
      SplitAppend(Joined(front), last, cfg.maxReceiveSize);
      hide SplitStream;
      var p := Fed(cfg, front);
      if !p.dead {
        ConsumeFollows(cfg, p.(acc := p.acc + last));
      }
    }
  }

  lemma EmptyWaits(max: nat)
    ensures HeadOf([], max) == Wait
  {}

  /** Two cuts of the same stream cannot be told apart. */
  lemma ChunkingIsInvisible(cfg: Config, a: seq<Bytes>, b: seq<Bytes>)
    requires Joined(a) == Joined(b)
    ensures var p, q := Fed(cfg, a), Fed(cfg, b);
            p.handed == q.handed && p.written == q.written && p.dead == q.dead && p.sess == q.sess
  {
    WholeStream(cfg, a);
    WholeStream(cfg, b);
  }
}
