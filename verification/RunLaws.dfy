/** Whole runs: any interleaving of frames and disconnects of any number of sessions. */
module RunLaws {
  import opened Defs
  import opened Wire
  import opened Lists
  import opened FFSplit
  import opened FFSplitLaws
  import opened Push
  import opened PushLaws
  import opened Turns
  import Lms
  import RoundLaws
  import M = Msg

  /** A session and whether the server has given up on it. */
  datatype Conn = Conn(sess: Sess, closing: bool)

  datatype World = World(server: State, conns: map<nat, Conn>)

  datatype Turn =
    | Frame(id: nat, frame: Bytes, env: Env)
    | Close(id: nat, ok: set<nat>)

  function Origin(): (w: World)
    ensures Shape(w.server)
  {
    World(Start(), map[])
  }

  function ConnOf(w: World, id: nat): Conn {
    if id in w.conns then w.conns[id] else Conn(NEW_SESSION, false)
  }

  ghost function Step(w: World, t: Turn): (r: World)
    requires Shape(w.server)
    ensures Shape(r.server)
  {
    var c := ConnOf(w, t.id);
    match t
    case Frame(id, frame, env) =>
      if c.closing then w
      else
        StepShape(w.server, c.sess, frame, env);
        var o := FrameStep(w.server, c.sess, frame, env);
        World(o.server, w.conns[id := Conn(o.sess, o.reply.Drop?)])
    case Close(id, ok) => World(LeaveStep(w.server, c.sess, ok), w.conns - {id})
  }

  lemma StepShape(s: State, c: Sess, frame: Bytes, env: Env)
    requires Shape(s)
    ensures Shape(FrameStep(s, c, frame, env).server)
  {
    hide M.DecodeOf, Recomputed, Refreshed, Joined, Answered;
  }

  ghost function Run(w: World, turns: seq<Turn>): (r: World)
    requires Shape(w.server)
    ensures Shape(r.server)
    decreases |turns|
  {
    if turns == [] then w else Run(Step(w, turns[0]), turns[1..])
  }

  // ---------- Assumptions on the environment ----------

  /** The INIT of a session that is accepted, if the turn is one. */
  ghost predicate Inits(w: World, t: Turn) {
    && t.Frame? && !ConnOf(w, t.id).closing && ConnOf(w, t.id).sess.stage == PreinitDone
    && M.DecodeOf(t.frame, RX_SIZE).Ok? && M.DecodeOf(t.frame, RX_SIZE).value.kind == M.INIT
    && InitError(w.server.algo, M.DecodeOf(t.frame, RX_SIZE).value) == E_NONE
  }

  ghost function InitNode(w: World, t: Turn): u32
    requires Inits(w, t)
  {
    M.DecodeOf(t.frame, RX_SIZE).value.nodeId.value
  }

  /** No other session refers to the slot of session `id`. */
  predicate SoleOwner(w: World, id: nat) {
    ConnOf(w, id).sess.slot >= 0 ==>
      forall other :: other in w.conns && other != id ==> w.conns[other].sess.slot != ConnOf(w, id).sess.slot
  }

  /** No INIT of a refused node that may hold an ACK while NACKs are to be confirmed, and no
      session closes under another one. */
  ghost predicate Admissible(w: World, t: Turn)
    requires Shape(w.server)
  {
    match t
    case Frame(_, _, _) => Inits(w, t) ==> !Unconfirmed(w.server, InitNode(w, t))
    case Close(id, _) => SoleOwner(w, id)
  }

  ghost predicate Fair(w: World, t: Turn)
    requires Shape(w.server)
  {
    Admissible(w, t) && NacksGetThrough(w.server, Step(w, t).server)
  }

  ghost predicate FairRun(w: World, turns: seq<Turn>)
    requires Shape(w.server)
    decreases |turns|
  {
    turns == [] || (Fair(w, turns[0]) && FairRun(Step(w, turns[0]), turns[1..]))
  }

  // ---------- The invariant of a run ----------

  /** An active session owns a connected slot that carries its node. */
  predicate Owns(s: State, c: Sess)
    requires Shape(s)
  {
    && (c.stage == Active <==> c.slot >= 0)
    && (c.slot >= 0 ==> Used(s, c.slot) && s.ff.clients[c.slot].nodeId == c.node && c.hasRing)
  }

  ghost predicate TableOk(t: seq<Client>) {
    DistinctNodes(t) && forall i :: 0 <= i < |t| && t[i].used ==> SelfListed(t[i])
  }

  ghost predicate WorldInv(w: World) {
    && Inv(w.server) && TableOk(w.server.ff.clients)
    && forall id :: id in w.conns ==> Owns(w.server, w.conns[id].sess)
  }

  // ---------- Turns that keep the seats ----------

  /** Every slot keeps its node; only `slot` may have a new membership, listing `node`. */
  predicate SeatsKept(s: State, r: State, slot: int, node: u32)
    requires Shape(s) && Shape(r)
  {
    forall i :: 0 <= i < MAX_CLIENTS ==>
      && r.ff.clients[i].used == s.ff.clients[i].used && r.ff.clients[i].nodeId == s.ff.clients[i].nodeId
      && (r.ff.clients[i].memb == s.ff.clients[i].memb || (i == slot && node in r.ff.clients[i].memb))
  }

  lemma RecomputeSeats(s: State, ok: set<nat>)
    requires Shape(s)
    ensures Recomputed(s, ok).ff.clients == s.ff.clients && Recomputed(s, ok).algo == s.algo
    ensures Recomputed(s, ok).decided <==> Stable(s.ff.clients)
  {
    if Stable(s.ff.clients) { RecomputedElsewhere(s, ok); }
  }

  lemma ConsideredKeeps(s: State, r: State, c: Sess, ok: set<nat>)
    requires Inv(s) && s.algo == ALGO_FFSPLIT && Shape(r) && Narrows(s, r)
    requires NacksGetThrough(s, Considered(r, c, ok).0)
    ensures Inv(Considered(r, c, ok).0)
    ensures Considered(r, c, ok).0.ff.clients == r.ff.clients
  {
    hide Recomputed;
    NarrowingKeeps(s, r);
    if c.hasConfig && c.hasMemb {
      RecomputedKeeps(r, ok);
      RecomputeSeats(r, ok);
    }
  }

  lemma LmsSteps(s: State, r: State, c: Sess, ok: set<nat>)
    requires Inv(s) && s.algo == ALGO_LMS && Shape(r) && Narrows(s, r) && c.slot >= 0
    ensures var d := LmsDecided(r, c.slot).0;
            Inv(d) && Inv(Refreshed(d, c.slot, ok)) && d.ff == r.ff && Refreshed(d, c.slot, ok).ff == r.ff
  {
    hide Lms.Saved, Lms.Vote;
    var d := LmsDecided(r, c.slot).0;
    NarrowingKeeps(s, r);
    NarrowingKeeps(r, d);
    RefreshedKeeps(d, c.slot, ok);
    RefreshFrame(d, c.slot, 0, ok);
  }

  lemma ListKeeps(s: State, c: Sess, m: M.Msg, ok: set<nat>)
    requires Inv(s) && Owns(s, c) && |m.nodes| <= FFSplit.MAX_NODES
    requires NacksGetThrough(s, ListStep(s, c, m, ok).server)
    ensures var o := ListStep(s, c, m, ok);
            Inv(o.server) && SeatsKept(s, o.server, c.slot, c.node) && Owns(o.server, o.sess)
            && o.sess.slot == c.slot
  {
    hide LmsDecided, Considered, Refreshed;
    if ListComplete(c, m) {
      assert s.algo != 0;
      var cl := s.ff.clients[c.slot];
      var mr, cr := WithClient(s, c.slot, MembershipStored(cl, m)), WithClient(s, c.slot, ConfigStored(cl, m));
      assert Narrows(s, s) && Narrows(s, mr) && Narrows(s, cr);
      if s.algo == ALGO_LMS {
        LmsSteps(s, s, c, ok);
        LmsSteps(s, mr, MembershipSeen(c, m), ok);
      } else if m.listType != Some(QUORUM) && ListsSelf(c, m) {
        if m.listType == Some(MEMBERSHIP) {
          ConsideredKeeps(s, mr, MembershipSeen(c, m), ok);
        } else {
          ConsideredKeeps(s, cr, c.(hasConfig := true), ok);
        }
      }
    }
  }

  lemma AskKeeps(s: State, c: Sess, m: M.Msg, ok: set<nat>)
    requires Inv(s) && Owns(s, c)
    ensures Inv(AskStep(s, c, m, ok).server) && SeatsKept(s, AskStep(s, c, m, ok).server, c.slot, c.node)
  {
    hide LmsDecided, Refreshed;
    if c.slot >= 0 && s.algo == ALGO_LMS {
      LmsSteps(s, s, c, ok);
    }
  }

  lemma HeurKeeps(s: State, c: Sess, m: M.Msg, ok: set<nat>)
    requires Inv(s) && Owns(s, c) && NacksGetThrough(s, HeurStep(s, c, m, ok).server)
    ensures Inv(HeurStep(s, c, m, ok).server) && SeatsKept(s, HeurStep(s, c, m, ok).server, c.slot, c.node)
  {
    hide Considered;
    if m.sn.Some? && m.heur.Some? && c.slot >= 0 && s.algo != ALGO_LMS {
      assert Used(s, c.slot);
      var r := WithClient(s, c.slot, s.ff.clients[c.slot].(heur := m.heur.value));
      assert Narrows(s, r);
      if m.heur == Some(HEUR_PASS) || m.heur == Some(HEUR_FAIL) {
        ConsideredKeeps(s, r, c, ok);
      }
    }
  }

  lemma OptionKeeps(s: State, c: Sess, m: M.Msg)
    requires Inv(s)
    ensures Inv(OptionStep(s, c, m).server) && SeatsKept(s, OptionStep(s, c, m).server, c.slot, c.node)
  {
    NarrowingKeeps(s, OptionStep(s, c, m).server);
  }

  lemma VoteReplyKeeps(s: State, c: Sess, m: M.Msg, ok: set<nat>)
    requires Inv(s) && Owns(s, c)
    ensures Inv(VoteReplyStep(s, c, m, ok).server) && SeatsKept(s, VoteReplyStep(s, c, m, ok).server, c.slot, c.node)
  {
    if s.algo == ALGO_FFSPLIT && c.slot >= 0 && m.sn.Some? {
      AnsweredKeeps(s, c.slot, m.sn.value, ok);
    }
  }

  lemma ActiveKeeps(s: State, c: Sess, m: M.Msg, frame: Bytes, ok: set<nat>)
    requires Inv(s) && Owns(s, c) && |m.nodes| <= FFSplit.MAX_NODES && |frame| >= M.HEADER_LEN
    requires NacksGetThrough(s, ActiveStep(s, c, m, frame, ok).server)
    ensures var o := ActiveStep(s, c, m, frame, ok);
            Inv(o.server) && SeatsKept(s, o.server, c.slot, c.node) && Owns(o.server, o.sess)
            && o.sess.slot == c.slot
  {
    hide Inv, ListStep;
    if m.kind == M.NODE_LIST {
      ListKeeps(s, c, m, ok);
    } else if m.kind == M.ASK_FOR_VOTE {
      AskKeeps(s, c, m, ok);
    } else if m.kind == M.HEURISTICS_CHANGE {
      HeurKeeps(s, c, m, ok);
    } else if m.kind == M.SET_OPTION {
      OptionKeeps(s, c, m);
    } else if m.kind == M.VOTE_INFO_REPLY {
      VoteReplyKeeps(s, c, m, ok);
    }
  }

  // ---------- Joining and leaving ----------

  /** Everybody connected stays where it is. */
  predicate OthersStay(s: State, r: State)
    requires Shape(s) && Shape(r)
  {
    forall i :: 0 <= i < MAX_CLIENTS && Used(s, i) ==> Used(r, i) && r.ff.clients[i].nodeId == s.ff.clients[i].nodeId
  }

  lemma JoinedTable(s: State, id: u32, tbMode: u8, tbNode: u32, algo: u16)
    requires Shape(s) && TableOk(s.ff.clients)
    ensures TableOk(Joined(s, id, tbMode, tbNode, algo).ff.clients)
    ensures OthersStay(s, Joined(s, id, tbMode, tbNode, algo))
  {
    var i, t := SlotFor(s.ff.clients, id), Joined(s, id, tbMode, tbNode, algo).ff.clients;
    if i >= 0 {
      var known := SlotOf(s.ff.clients, id) >= 0;
      assert t[i].nodeId == id && t[i].memb == if known then s.ff.clients[i].memb else [];
      assert known <==> Used(s, i);
      forall j | 0 <= j < MAX_CLIENTS && j != i
        ensures t[j] == s.ff.clients[j] && (t[j].used ==> t[j].nodeId != id)
      {
        if !known { assert !Holds(s.ff.clients, j, id); }
      }
    }
  }

  lemma InitKeeps(s: State, c: Sess, m: M.Msg, env: Env)
    requires Inv(s) && TableOk(s.ff.clients) && c.stage == PreinitDone && c.slot < 0
    requires m.kind == M.INIT && InitError(s.algo, m) == E_NONE ==> !Unconfirmed(s, m.nodeId.value)
    ensures var o := InitStep(s, c, m, env);
            Inv(o.server) && TableOk(o.server.ff.clients) && OthersStay(s, o.server) && Owns(o.server, o.sess)
  {
    assert Shape(s);
    hide Inv, TableOk, Unconfirmed;
    if m.kind == M.INIT && InitError(s.algo, m) == E_NONE {
      var id, t := m.nodeId.value, m.tie.value;
      var i := SlotFor(s.ff.clients, id);
      if i >= 0 {
        JoinedKeeps(s, id, t.mode, t.node, m.algorithm.value);
        JoinedTable(s, id, t.mode, t.node, m.algorithm.value);
      }
    }
  }

  lemma LeftSeats(s: State, i: nat, ok: set<nat>)
    requires Shape(s) && i < MAX_CLIENTS
    ensures Left(s, i, ok).ff.clients == WithoutSlot(s.ff.clients, i)
  {
    hide Recomputed, RefreshedFrom;
    var v := Vacated(s, i);
    RecomputeSeats(v, ok);
    RefreshFrame(v, -1, 0, ok);
  }

  // ---------- Every turn keeps the invariant ----------

  /** One frame, from a session that keeps the invariant. */
  lemma FrameKeeps(s: State, c: Sess, frame: Bytes, env: Env)
    requires Inv(s) && TableOk(s.ff.clients) && Owns(s, c)
    requires c.stage == PreinitDone && M.DecodeOf(frame, RX_SIZE).Ok? ==>
               var m := M.DecodeOf(frame, RX_SIZE).value;
               m.kind == M.INIT && InitError(s.algo, m) == E_NONE ==> !Unconfirmed(s, m.nodeId.value)
    requires Shape(FrameStep(s, c, frame, env).server) && NacksGetThrough(s, FrameStep(s, c, frame, env).server)
    ensures var o := FrameStep(s, c, frame, env);
            Inv(o.server) && TableOk(o.server.ff.clients) && OthersStay(s, o.server) && Owns(o.server, o.sess)
  {
    assert Shape(s);
    hide M.DecodeOf, Inv, InitStep, ActiveStep, TableOk, Unconfirmed;
    if M.DecodeOf(frame, RX_SIZE).Ok? {
      var m := M.DecodeOf(frame, RX_SIZE).value;
      DecodedNodesFit(frame, RX_SIZE);
      match c.stage {
        case Connected =>
        case PreinitDone => InitKeeps(s, c, m, env);
        case Active =>
          ActiveKeeps(s, c, m, frame, env.ok);
      }
    }
  }

  lemma FrameTurnKeeps(w: World, t: Turn)
    requires WorldInv(w) && t.Frame? && Fair(w, t)
    ensures WorldInv(Step(w, t))
  {
    assert Shape(w.server);
    hide FrameStep, Inv, TableOk, Unconfirmed;
    var c := ConnOf(w, t.id);
    if !c.closing {
      StepShape(w.server, c.sess, t.frame, t.env);
      FrameKeeps(w.server, c.sess, t.frame, t.env);
      var r := Step(w, t);
      forall id | id in r.conns
        ensures Owns(r.server, r.conns[id].sess)
      {
        if id != t.id { assert Owns(w.server, w.conns[id].sess); }
      }
    }
  }

  lemma VacatedTable(t: seq<Client>, i: int)
    requires TableOk(t)
    ensures TableOk(WithoutSlot(t, i))
    ensures forall j :: 0 <= j < |t| && j != i ==> WithoutSlot(t, i)[j] == t[j]
  {}

  lemma LeaveKeeps(s: State, c: Sess, ok: set<nat>)
    requires Inv(s) && TableOk(s.ff.clients) && NacksGetThrough(s, LeaveStep(s, c, ok))
    ensures var r := LeaveStep(s, c, ok);
            && Inv(r) && TableOk(r.ff.clients)
            && forall i :: 0 <= i < MAX_CLIENTS && i != c.slot ==> r.ff.clients[i] == s.ff.clients[i]
  {
    assert Shape(s);
    hide Left, Inv, TableOk, WithoutSlot, NacksGetThrough;
    if c.slot >= 0 {
      VacatedTable(s.ff.clients, c.slot);
      LeftKeeps(s, c.slot, ok);
      LeftSeats(s, c.slot, ok);
    }
  }

  lemma CloseTurnKeeps(w: World, t: Turn)
    requires WorldInv(w) && t.Close? && Fair(w, t)
    ensures WorldInv(Step(w, t))
  {
    assert Shape(w.server);
    hide LeaveStep, Inv, TableOk;
    var c, r := ConnOf(w, t.id), Step(w, t);
    LeaveKeeps(w.server, c.sess, t.ok);
    forall id | id in r.conns
      ensures Owns(r.server, r.conns[id].sess)
    {
      assert Owns(w.server, w.conns[id].sess);
    }
  }

  /** Any fair turn of any session keeps the invariant. */
  lemma StepKeeps(w: World, t: Turn)
    requires WorldInv(w) && Fair(w, t)
    ensures WorldInv(Step(w, t))
  {
    match t {
      case Frame(_, _, _) => FrameTurnKeeps(w, t);
      case Close(_, _) => CloseTurnKeeps(w, t);
    }
  }

  lemma WipingBreaks(w: World, t: Turn)
    requires WorldInv(w) && t.Frame? && Inits(w, t) && Unconfirmed(w.server, InitNode(w, t))
    ensures !WorldInv(Step(w, t))
  {
    var m := M.DecodeOf(t.frame, RX_SIZE).value;
    DecodedNodesFit(t.frame, RX_SIZE);
    JoinedExactly(w.server, m.nodeId.value, m.tie.value.mode, m.tie.value.node, m.algorithm.value);
    hide M.DecodeOf, Inv, Joined, Unconfirmed;
    assert Step(w, t).server
        == Joined(w.server, m.nodeId.value, m.tie.value.mode, m.tie.value.node, m.algorithm.value);
  }

  /** Closing one of two sessions of a node pulls the slot from under the other one. */
  lemma SharedCloseBreaks(w: World, t: Turn)
    requires WorldInv(w) && t.Close? && !SoleOwner(w, t.id)
    ensures !WorldInv(Step(w, t))
  {
    assert Shape(w.server);
    hide Left, Inv, TableOk;
    var c, r := ConnOf(w, t.id), Step(w, t);
    var other :| other in w.conns && other != t.id && w.conns[other].sess.slot == c.sess.slot;
    LeftSeats(w.server, c.sess.slot, t.ok);
    assert other in r.conns && !Owns(r.server, r.conns[other].sess);
  }

  /** As long as due NACKs get through, a turn keeps the invariant exactly when it is
      admissible. The invariant is stronger than exclusivity: when the two inadmissible turns
      are harmful is said by `FailureLaws.JoinHoldersExactly` and `CloseAccountsExactly`. */
  lemma StepKeepsExactly(w: World, t: Turn)
    requires WorldInv(w)
    ensures NacksGetThrough(w.server, Step(w, t).server) ==> (WorldInv(Step(w, t)) <==> Admissible(w, t))
  {
    if Admissible(w, t) {
      if NacksGetThrough(w.server, Step(w, t).server) { StepKeeps(w, t); }
    } else if t.Frame? {
      WipingBreaks(w, t);
    } else {
      SharedCloseBreaks(w, t);
    }
  }

  lemma {:induction false} RunKeeps(w: World, turns: seq<Turn>)
    requires WorldInv(w) && FairRun(w, turns)
    ensures WorldInv(Run(w, turns))
    decreases |turns|
  {
    if turns != [] {
      StepKeeps(w, turns[0]);
      RunKeeps(Step(w, turns[0]), turns[1..]);
    }
  }

  // ---------- The theorems ----------

  /** In every such run a session that refers to a slot finds its own node connected there,
      and the connected nodes are distinct and list themselves. */
  lemma RunIsSeated(turns: seq<Turn>)
    requires FairRun(Origin(), turns)
    ensures var w := Run(Origin(), turns);
            && DistinctNodes(w.server.ff.clients) && SelfListing(FFSplitLaws.Connected(w.server.ff.clients))
            && forall id :: id in w.conns && w.conns[id].sess.slot >= 0 ==>
                 Used(w.server, w.conns[id].sess.slot)
                 && w.server.ff.clients[w.conns[id].sess.slot].nodeId == w.conns[id].sess.node
  {
    RunKeeps(Origin(), turns);
    var w := Run(Origin(), turns);
    forall id | id in w.conns && w.conns[id].sess.slot >= 0
      ensures Used(w.server, w.conns[id].sess.slot)
      ensures w.server.ff.clients[w.conns[id].sess.slot].nodeId == w.conns[id].sess.node
    {
      assert Owns(w.server, w.conns[id].sess);
    }
  }

  // ---------- What a turn can do to the push state ----------

  /** The same clients in the same push states; only what they report may differ. */
  predicate Quiet(s: State, r: State)
    requires Shape(s) && Shape(r)
  {
    && r.algo == s.algo && r.phase == s.phase && r.st == s.st && r.logs == s.logs
    && r.decisions == s.decisions && r.ff.quorate == s.ff.quorate
    && forall i :: 0 <= i < MAX_CLIENTS ==>
         Used(r, i) == Used(s, i) && r.ff.clients[i].nodeId == s.ff.clients[i].nodeId
  }

  /** Under LMS: pushes without push states. */
  predicate LmsOnly(s: State, r: State)
    requires Shape(s) && Shape(r)
  {
    && s.algo == ALGO_LMS && r.algo == s.algo && r.phase == s.phase && r.st == s.st
    && r.decisions == s.decisions && r.ff.quorate == s.ff.quorate
    && forall i :: 0 <= i < MAX_CLIENTS ==> Used(r, i) == Used(s, i)
  }

  datatype Effect =
    | Idle
    | Decides
    | Answers(slot: nat, n: nat)
    | Joins(id: u32, tbMode: u8, tbNode: u32, algo: u16)
    | Refreshes

  /** `r` is what the effect `e` makes of `q`, the state after storing what was reported. */
  ghost predicate Causes(s: State, q: State, e: Effect, ok: set<nat>, r: State)
    requires Shape(s) && Shape(q) && Shape(r)
  {
    match e
    case Idle => r == q
    case Decides => s.algo != ALGO_LMS && r == Recomputed(q, ok)
    case Answers(i, n) => s.algo == ALGO_FFSPLIT && i < MAX_CLIENTS && r == Answered(q, i, n, ok)
    case Joins(id, mode, node, algo) => r == Joined(q, id, mode, node, algo)
    case Refreshes => LmsOnly(s, r)
  }

  lemma LmsQuiet(s: State, r: State, i: nat, ok: set<nat>)
    requires Shape(s) && Shape(r) && Quiet(s, r) && s.algo == ALGO_LMS && i < MAX_CLIENTS
    ensures var d := LmsDecided(r, i).0;
            Shape(d) && LmsOnly(s, d) && LmsOnly(s, Refreshed(d, i, ok))
  {
    hide Lms.Saved, Lms.Vote;
    RefreshFrame(LmsDecided(r, i).0, i, 0, ok);
  }

  lemma ListEffect(s: State, c: Sess, m: M.Msg, ok: set<nat>) returns (q: State, e: Effect)
    requires Shape(s) && |m.nodes| <= FFSplit.MAX_NODES
    ensures Shape(q) && Quiet(s, q) && Shape(ListStep(s, c, m, ok).server)
    ensures Causes(s, q, e, ok, ListStep(s, c, m, ok).server) && !e.Joins? && !e.Answers?
  {
    hide LmsDecided, Refreshed, Recomputed;
    q, e := s, Idle;
    if ListComplete(c, m) {
      var cl, isMemb := s.ff.clients[c.slot], m.listType == Some(MEMBERSHIP);
      var mr, cr := WithClient(s, c.slot, MembershipStored(cl, m)), WithClient(s, c.slot, ConfigStored(cl, m));
      assert Quiet(s, mr) && Quiet(s, cr);
      if s.algo == ALGO_LMS {
        LmsQuiet(s, s, c.slot, ok);
        LmsQuiet(s, mr, c.slot, ok);
        if m.listType == Some(QUORUM) || (isMemb && ListsSelf(c, m)) {
          e := Refreshes;
        }
      } else if m.listType != Some(QUORUM) && ListsSelf(c, m) {
        q := if isMemb then mr else cr;
        var c' := if isMemb then MembershipSeen(c, m) else c.(hasConfig := true);
        e := if c'.hasConfig && c'.hasMemb then Decides else Idle;
      }
    }
  }

  lemma ActiveEffect(s: State, c: Sess, m: M.Msg, frame: Bytes, ok: set<nat>) returns (q: State, e: Effect)
    requires Shape(s) && |m.nodes| <= FFSplit.MAX_NODES && |frame| >= M.HEADER_LEN
    ensures Shape(q) && Quiet(s, q) && Shape(ActiveStep(s, c, m, frame, ok).server)
    ensures Causes(s, q, e, ok, ActiveStep(s, c, m, frame, ok).server) && !e.Joins?
    ensures e.Answers? ==> m.kind == M.VOTE_INFO_REPLY
  {
    hide LmsDecided, Refreshed, Recomputed, Answered, ListStep;
    q, e := s, Idle;
    if m.kind == M.NODE_LIST {
      q, e := ListEffect(s, c, m, ok);
    } else if m.kind == M.ASK_FOR_VOTE {
      if m.sn.Some? && c.slot >= 0 && s.algo == ALGO_LMS {
        LmsQuiet(s, s, c.slot, ok);
        e := Refreshes;
      }
    } else if m.kind == M.HEURISTICS_CHANGE {
      if m.sn.Some? && (m.heur == Some(HEUR_PASS) || m.heur == Some(HEUR_FAIL)) && c.slot >= 0 && s.algo != ALGO_LMS {
        q := WithClient(s, c.slot, s.ff.clients[c.slot].(heur := m.heur.value));
        e := if c.hasConfig && c.hasMemb then Decides else Idle;
      }
    } else if m.kind == M.SET_OPTION {
      q := OptionStep(s, c, m).server;
    } else if m.kind == M.VOTE_INFO_REPLY {
      if s.algo == ALGO_FFSPLIT && c.slot >= 0 && m.sn.Some? {
        e := Answers(c.slot, m.sn.value);
      }
    }
  }

  /** One frame stores reports and then does nothing, decides, takes a reply, lets a node
      join, or refreshes LMS waiters. */
  lemma FrameEffect(s: State, c: Sess, frame: Bytes, env: Env) returns (q: State, e: Effect)
    requires Shape(s)
    ensures Shape(q) && Quiet(s, q) && Shape(FrameStep(s, c, frame, env).server)
    ensures Causes(s, q, e, env.ok, FrameStep(s, c, frame, env).server)
    ensures e.Answers? ==>
              M.DecodeOf(frame, RX_SIZE).Ok? && M.DecodeOf(frame, RX_SIZE).value.kind == M.VOTE_INFO_REPLY
  {
    hide M.DecodeOf, ActiveStep, Joined, Recomputed, Answered;
    q, e := s, Idle;
    if M.DecodeOf(frame, RX_SIZE).Ok? {
      var m := M.DecodeOf(frame, RX_SIZE).value;
      DecodedNodesFit(frame, RX_SIZE);
      if c.stage == Active {
        q, e := ActiveEffect(s, c, m, frame, env.ok);
      } else if c.stage == PreinitDone && m.kind == M.INIT && InitError(s.algo, m) == E_NONE
                && SlotFor(s.ff.clients, m.nodeId.value) >= 0 {
        e := Joins(m.nodeId.value, m.tie.value.mode, m.tie.value.node, m.algorithm.value);
      }
    }
  }

  // ---------- Phases and ACK order over whole runs ----------

  function Transports(t: Turn): set<nat> {
    match t case Frame(_, _, env) => env.ok case Close(_, ok) => ok
  }

  lemma StepTidy(w: World, t: Turn)
    requires RoundLaws.Tidy(w.server) && RoundLaws.Delivers(Transports(t))
    ensures RoundLaws.Tidy(Step(w, t).server)
  {
    assert Shape(w.server);
    hide FrameStep, Left, Recomputed, Answered, Joined, RoundLaws.Tidy;
    var s, c := w.server, ConnOf(w, t.id);
    match t {
      case Close(_, ok) =>
        if c.sess.slot >= 0 { RoundLaws.LeftTidy(s, c.sess.slot, ok); }
      case Frame(_, frame, env) =>
        if !c.closing {
          var q, e := FrameEffect(s, c.sess, frame, env);
          match e {
            case Decides => RoundLaws.RecomputedTidy(q, env.ok);
            case Answers(i, n) => RoundLaws.AnsweredTidy(q, i, n, env.ok);
            case _ =>
          }
        }
    }
  }

  lemma {:induction false} RunTidy(w: World, turns: seq<Turn>)
    requires RoundLaws.Tidy(w.server) && forall k :: 0 <= k < |turns| ==> RoundLaws.Delivers(Transports(turns[k]))
    ensures RoundLaws.Tidy(Run(w, turns).server)
    decreases |turns|
  {
    assert Shape(w.server);
    hide Step, RoundLaws.Tidy;
    if turns != [] {
      StepTidy(w, turns[0]);
      RunTidy(Step(w, turns[0]), turns[1..]);
    }
  }

  /** With pushes succeeding, in every run: phase 0 means all connected slots are idle,
      phase 1 idle, ACK due or NACK pending, phase 2 idle or ACK pending. */
  lemma PhaseSummarises(turns: seq<Turn>)
    requires forall k :: 0 <= k < |turns| ==> RoundLaws.Delivers(Transports(turns[k]))
    ensures var s := Run(Origin(), turns).server;
            && s.phase <= 2
            && forall i :: 0 <= i < MAX_CLIENTS && s.ff.clients[i].used ==>
                 match s.phase
                 case 0 => s.st[i] == NONE
                 case 1 => s.st[i] == NONE || s.st[i] == ACK_DUE || s.st[i] == NACK_PENDING
                 case _ => s.st[i] == NONE || s.st[i] == ACK_PENDING
  {
    assert RoundLaws.Tidy(Start()) by {
      assert forall i :: !Used(Start(), i);
    }
    RunTidy(Origin(), turns);
    var s := Run(Origin(), turns).server;
    forall i | 0 <= i < MAX_CLIENTS && s.ff.clients[i].used
      ensures RoundLaws.TidySlot(s.phase, s.st[i])
    {
      assert Used(s, i);
    }
  }

  lemma LeftAckIsLast(s: State, i: nat, ok: set<nat>)
    requires Shape(s) && i < MAX_CLIENTS && s.algo != ALGO_LMS
    ensures RoundLaws.AckPushed(s, Left(s, i, ok)) ==> !AnyIn(Left(s, i, ok), NACK_PENDING, NACK_PENDING)
  {
    hide Recomputed;
    if s.algo == ALGO_FFSPLIT {
      var v, d := Vacated(s, i), Recomputed(Vacated(s, i), ok);
      assert Left(s, i, ok).logs == d.logs && v.logs == s.logs;
      RoundLaws.RecomputedAckIsLast(v, ok);
      assert RoundLaws.AckPushed(s, Left(s, i, ok)) ==> RoundLaws.AckPushed(v, d);
      assert forall j :: Due(Left(s, i, ok), j, NACK_PENDING) ==> Due(d, j, NACK_PENDING);
    }
  }

  lemma JoinPushesNothing(s: State, id: u32, tbMode: u8, tbNode: u32, algo: u16)
    requires Shape(s)
    ensures !RoundLaws.AckPushed(s, Joined(s, id, tbMode, tbNode, algo))
  {
    var r := Joined(s, id, tbMode, tbNode, algo);
    assert forall i :: 0 <= i < MAX_CLIENTS ==> |r.logs[i]| <= |s.logs[i]|;
  }

  /** From any state whatever, and even when pushes fail: a turn that pushes an FFSplit ACK
      leaves no connected client with a NACK still to be confirmed. */
  lemma AckOnlyAfterNacks(w: World, t: Turn)
    requires Shape(w.server) && w.server.algo != ALGO_LMS
    ensures RoundLaws.AckPushed(w.server, Step(w, t).server) ==>
              !AnyIn(Step(w, t).server, NACK_PENDING, NACK_PENDING)
  {
    hide FrameStep, Left, Recomputed, Answered, Joined;
    var s, c, r := w.server, ConnOf(w, t.id), Step(w, t).server;
    match t {
      case Close(_, ok) =>
        if c.sess.slot >= 0 { LeftAckIsLast(s, c.sess.slot, ok); }
      case Frame(_, frame, env) =>
        if !c.closing {
          var q, e := FrameEffect(s, c.sess, frame, env);
          assert RoundLaws.AckPushed(s, r) ==> RoundLaws.AckPushed(q, r);
          match e {
            case Decides => RoundLaws.RecomputedAckIsLast(q, env.ok);
            case Answers(i, n) => RoundLaws.AnsweredAckIsLast(q, i, n, env.ok);
            case Joins(id, mode, node, algo) => JoinPushesNothing(q, id, mode, node, algo);
            case _ =>
          }
        }
    }
  }

  // ---------- Every decision of a run grants one partition ----------

  /** Clients inside `q` share ring and membership; nobody outside lists any of them. */
  ghost predicate OnePartition(t: seq<Client>, q: seq<u32>) {
    forall i, j :: 0 <= i < |t| && 0 <= j < |t| && t[i].used && t[j].used && t[i].nodeId in q ==>
      if t[j].nodeId in q then SameRing(t[i], t[j]) && ToSet(t[i].memb) == ToSet(t[j].memb)
      else t[i].nodeId !in t[j].memb
  }

  /** Nothing, or the reported membership of a connected client that reaches half of its
      config or more. */
  predicate Quorate(t: seq<Client>, q: Ids) {
    q == [] || exists i :: 0 <= i < |t| && t[i].used && t[i].memb == q && ReachesHalf(t[i])
  }

  /** Either no decision was taken, or one: a quorate selection granting one partition. */
  ghost predicate DecidesOnePartition(s: State, r: State)
    requires Shape(s) && Shape(r)
  {
    r.decisions == s.decisions
    || (|r.decisions| == |s.decisions| + 1 && r.decisions[..|s.decisions|] == s.decisions
        && OnePartition(r.ff.clients, r.decisions[|s.decisions|])
        && Quorate(r.ff.clients, r.decisions[|s.decisions|]))
  }

  lemma DecidedPartition(s: State, ok: set<nat>)
    requires Shape(s) && Stable(s.ff.clients) && TableOk(s.ff.clients)
    ensures var r := Recomputed(s, ok);
            && r.decisions == s.decisions + [Chosen(s.ff)]
            && OnePartition(r.ff.clients, Chosen(s.ff)) && Quorate(r.ff.clients, Chosen(s.ff))
  {
    hide Recomputed, Stable;
    RecomputedElsewhere(s, ok);
    var t, q := s.ff.clients, Chosen(s.ff);
    assert DistinctNodes(t) && SelfListing(FFSplitLaws.Connected(t));
    BestReachesHalf(s.ff, |t|);
    forall i, j | 0 <= i < |t| && 0 <= j < |t| && t[i].used && t[j].used && t[i].nodeId in q
      ensures if t[j].nodeId in q then SameRing(t[i], t[j]) && ToSet(t[i].memb) == ToSet(t[j].memb)
              else t[i].nodeId !in t[j].memb
    {
      DecisionIsOnePartition(s.ff, i, j);
    }
  }

  lemma AnsweredDecidesNothing(s: State, i: nat, n: nat, ok: set<nat>)
    requires Shape(s) && i < MAX_CLIENTS
    ensures Answered(s, i, n, ok).decisions == s.decisions
  {}

  lemma RecomputeDecides(s: State, ok: set<nat>)
    requires Shape(s) && TableOk(s.ff.clients)
    ensures DecidesOnePartition(s, Recomputed(s, ok))
  {
    if Stable(s.ff.clients) { DecidedPartition(s, ok); }
  }

  lemma FrameDecides(s: State, c: Sess, frame: Bytes, env: Env)
    requires Shape(s) && Shape(FrameStep(s, c, frame, env).server)
    requires TableOk(FrameStep(s, c, frame, env).server.ff.clients)
    ensures DecidesOnePartition(s, FrameStep(s, c, frame, env).server)
  {
    hide FrameStep, Recomputed, Answered, OnePartition, Quorate, TableOk;
    var r := FrameStep(s, c, frame, env).server;
    var q, e := FrameEffect(s, c, frame, env);
    match e {
      case Answers(i, n) => AnsweredDecidesNothing(q, i, n, env.ok);
      case Joins(id, mode, node, algo) => JoinDecidesNothing(q, id, mode, node, algo);
      case Decides =>
        RecomputeSeats(q, env.ok);
        RecomputeDecides(q, env.ok);
      case _ =>
    }
  }

  lemma LeftDecides(s: State, i: nat, ok: set<nat>)
    requires Shape(s) && i < MAX_CLIENTS && TableOk(Left(s, i, ok).ff.clients)
    ensures DecidesOnePartition(s, Left(s, i, ok))
  {
    hide Recomputed, OnePartition, Quorate, TableOk, RefreshedFrom;
    var v := Vacated(s, i);
    RefreshFrame(v, -1, 0, ok);
    RecomputeSeats(v, ok);
    RecomputeDecides(v, ok);
  }

  lemma StepDecides(w: World, t: Turn)
    requires WorldInv(w) && Fair(w, t)
    ensures DecidesOnePartition(w.server, Step(w, t).server)
  {
    hide FrameStep, Left, OnePartition, Quorate;
    StepKeeps(w, t);
    var c := ConnOf(w, t.id);
    match t {
      case Frame(_, frame, env) =>
        if !c.closing {
          StepShape(w.server, c.sess, frame, env);
          FrameDecides(w.server, c.sess, frame, env);
        }
      case Close(_, ok) =>
        if c.sess.slot >= 0 { LeftDecides(w.server, c.sess.slot, ok); }
    }
  }

  /** At any point of a fair run, a turn that decides appends one selection, and the clients
      it grants form one partition: one ring, one membership, listed by nobody it refuses.
      The selection is empty or reaches half of the config. */
  lemma RunDecidesOnePartition(turns: seq<Turn>, t: Turn)
    requires FairRun(Origin(), turns) && Fair(Run(Origin(), turns), t)
    ensures DecidesOnePartition(Run(Origin(), turns).server, Step(Run(Origin(), turns), t).server)
  {
    RunKeeps(Origin(), turns);
    StepDecides(Run(Origin(), turns), t);
  }

  // ---------- Exclusivity over whole runs ----------

  /** The selection in force: the latest one outside phase 1, that is, the latest whose
      refused clients did not still have to confirm. */
  ghost function InForce(w: World, turns: seq<Turn>, q: Ids): Ids
    requires Shape(w.server)
    decreases |turns|
  {
    if turns == [] then q
    else
      var r := Step(w, turns[0]);
      InForce(r, turns[1..], if r.server.phase == 1 then q else r.server.ff.quorate)
  }

  /** No client becomes a holder, and none changes its node. */
  predicate HoldersOnlyShrink(s: State, r: State)
    requires Shape(s) && Shape(r)
  {
    forall i :: 0 <= i < MAX_CLIENTS && Holder(r, i) ==>
      Holder(s, i) && r.ff.clients[i].nodeId == s.ff.clients[i].nodeId
  }

  lemma NackingShrinks(s: State, ok: set<nat>)
    requires Shape(s) && Recomputed(s, ok).phase == 1
    ensures HoldersOnlyShrink(s, Recomputed(s, ok))
  {
    var r := Recomputed(s, ok);
    if Stable(s.ff.clients) {
      hide Recomputed, Stable;
      RecomputedElsewhere(s, ok);
      forall i | 0 <= i < MAX_CLIENTS && Holder(r, i)
        ensures Holder(s, i)
      {
        assert Used(s, i);
        RecomputedAt(s, ok, i);
        PushRecorded(s.logs[i], NextPush(s, i, VOTE_NACK));
      }
    } else {
      assert forall i :: Holder(r, i) ==> Holder(s, i);
    }
  }

  lemma WaitingOnlyNotes(s: State, i: nat, n: nat, ok: set<nat>)
    requires Shape(s) && i < MAX_CLIENTS && Answered(s, i, n, ok).phase == 1
    ensures var r := Answered(s, i, n, ok);
            r.ff == s.ff && r.logs == s.logs[i := s.logs[i] + [Replied(n)]]
  {
    hide Drained, AnyIn;
  }

  lemma WaitingShrinks(s: State, i: nat, n: nat, ok: set<nat>)
    requires Shape(s) && i < MAX_CLIENTS && Answered(s, i, n, ok).phase == 1
    ensures HoldersOnlyShrink(s, Answered(s, i, n, ok))
  {
    hide Answered, MayHold;
    var r := Answered(s, i, n, ok);
    WaitingOnlyNotes(s, i, n, ok);
    ReplyRecorded(s.logs[i], n);
    forall j | 0 <= j < MAX_CLIENTS && Holder(r, j)
      ensures Holder(s, j) && r.ff.clients[j].nodeId == s.ff.clients[j].nodeId
    {
      assert j != i ==> r.logs[j] == s.logs[j];
    }
  }

  lemma JoiningShrinks(s: State, id: u32, tbMode: u8, tbNode: u32, algo: u16)
    requires Shape(s)
    ensures HoldersOnlyShrink(s, Joined(s, id, tbMode, tbNode, algo))
  {
    var i, r := SlotFor(s.ff.clients, id), Joined(s, id, tbMode, tbNode, algo);
    forall j | 0 <= j < MAX_CLIENTS && Holder(r, j)
      ensures Holder(s, j) && r.ff.clients[j].nodeId == s.ff.clients[j].nodeId
    {
      assert j == i ==> SlotOf(s.ff.clients, id) >= 0;
      assert Used(s, j);
    }
  }

  lemma LeavingShrinks(s: State, i: nat, ok: set<nat>)
    requires Inv(s) && i < MAX_CLIENTS && Left(s, i, ok).phase == 1
    ensures s.algo == ALGO_FFSPLIT && HoldersOnlyShrink(s, Left(s, i, ok))
  {
    hide Recomputed, RefreshedFrom;
    var v := Vacated(s, i);
    RefreshFrame(v, -1, 0, ok);
    assert HoldersOnlyShrink(s, v) by {
      assert forall j :: Holder(v, j) ==> Holder(s, j);
    }
    if s.algo == ALGO_FFSPLIT {
      NackingShrinks(v, ok);
    }
  }

  /** A frame after which NACKs are pending grants nobody. */
  lemma FrameShrinks(s: State, c: Sess, frame: Bytes, env: Env)
    requires Inv(s) && Shape(FrameStep(s, c, frame, env).server) && FrameStep(s, c, frame, env).server.phase == 1
    ensures s.algo == ALGO_FFSPLIT && HoldersOnlyShrink(s, FrameStep(s, c, frame, env).server)
  {
    hide FrameStep, Recomputed, Answered, Joined, M.DecodeOf;
    var r := FrameStep(s, c, frame, env).server;
    var q, e := FrameEffect(s, c, frame, env);
    assert HoldersOnlyShrink(s, q) by {
      assert forall j :: 0 <= j < MAX_CLIENTS && Holder(q, j) ==> Used(s, j);
    }
    match e {
      case Idle =>
      case Decides =>
        NackingShrinks(q, env.ok);
        if s.algo == 0 && Stable(q.ff.clients) {
          RecomputedElsewhere(q, env.ok);
          assert false;
        }
      case Answers(i, n) => WaitingShrinks(q, i, n, env.ok);
      case Joins(id, mode, node, algo) =>
        JoiningShrinks(q, id, mode, node, algo);
        JoinKeepsPhase(q, id, mode, node, algo);
      case Refreshes =>
    }
  }

  lemma JoinKeepsPhase(s: State, id: u32, tbMode: u8, tbNode: u32, algo: u16)
    requires Shape(s)
    ensures Joined(s, id, tbMode, tbNode, algo).phase == s.phase
  {}

  /** A turn that leaves the server in phase 1 grants nobody. */
  lemma PhaseOneShrinks(w: World, t: Turn)
    requires WorldInv(w) && Step(w, t).server.phase == 1
    ensures w.server.algo == ALGO_FFSPLIT && HoldersOnlyShrink(w.server, Step(w, t).server)
  {
    assert Shape(w.server);
    hide FrameStep, Left;
    var c := ConnOf(w, t.id);
    match t {
      case Close(_, ok) =>
        if c.sess.slot >= 0 { LeavingShrinks(w.server, c.sess.slot, ok); }
      case Frame(_, frame, env) =>
        if !c.closing {
          StepShape(w.server, c.sess, frame, env);
          FrameShrinks(w.server, c.sess, frame, env);
        }
    }
  }

  lemma {:induction false} HoldersInForce(w: World, turns: seq<Turn>, q: Ids)
    requires WorldInv(w) && FairRun(w, turns)
    requires w.server.algo == ALGO_FFSPLIT ==> HoldersWithin(w.server, q)
    ensures Run(w, turns).server.algo == ALGO_FFSPLIT ==> HoldersWithin(Run(w, turns).server, InForce(w, turns, q))
    decreases |turns|
  {
    assert Shape(w.server);
    hide Step, Admissible, NacksGetThrough, Inv, HoldersWithin;
    if turns != [] {
      var r := Step(w, turns[0]);
      StepKeeps(w, turns[0]);
      var q' := if r.server.phase == 1 then q else r.server.ff.quorate;
      if r.server.phase == 1 { PhaseOneShrinks(w, turns[0]); }
      HoldersInForce(r, turns[1..], q');
    }
  }

  /** The selection in force was decided: decisions are only ever appended. */
  lemma {:induction false} InForceDecided(w: World, turns: seq<Turn>, q: Ids)
    requires WorldInv(w) && FairRun(w, turns) && DecidedSet(w.server, q)
    ensures DecidedSet(Run(w, turns).server, InForce(w, turns, q))
    decreases |turns|
  {
    assert Shape(w.server);
    if turns != [] {
      var r := Step(w, turns[0]);
      StepKeeps(w, turns[0]);
      StepDecides(w, turns[0]);
      assert DecidedSet(r.server, r.server.ff.quorate) && DecidedSet(r.server, q);
      hide Step, Admissible, NacksGetThrough, Inv, TableOk, DecidesOnePartition, DecidedSet;
      InForceDecided(r, turns[1..], if r.server.phase == 1 then q else r.server.ff.quorate);
    }
  }

  /** A session whose node may still hold an unrevoked ACK. */
  predicate LiveHolder(w: World, id: nat)
    requires Shape(w.server)
  {
    id in w.conns && w.conns[id].sess.slot >= 0 && MayHold(w.server.logs[w.conns[id].sess.slot])
  }

  /** One decided set contains the nodes of all sessions that may hold an ACK. */
  ghost predicate LiveExclusive(w: World)
    requires Shape(w.server)
  {
    exists q: Ids :: DecidedSet(w.server, q) && forall id :: LiveHolder(w, id) ==> w.conns[id].sess.node in q
  }

  /** The table knows every session that may hold an ACK. */
  ghost predicate Accounted(w: World)
    requires Shape(w.server)
  {
    forall id :: LiveHolder(w, id) ==>
      var c := w.conns[id].sess;
      Holder(w.server, c.slot) && w.server.ff.clients[c.slot].nodeId == c.node
  }

  lemma {:induction false} RefreshSkipsUnused(s: State, exclude: int, from: nat, ok: set<nat>, i: nat)
    requires Shape(s) && from <= MAX_CLIENTS && i < MAX_CLIENTS && !Used(s, i)
    ensures RefreshedFrom(s, exclude, from, ok).logs[i] == s.logs[i]
    decreases MAX_CLIENTS - from
  {
    if from < MAX_CLIENTS {
      var next := if Lms.Waits(s.ff.clients, exclude, s.last, from) then Rerun(s, from, ok) else s;
      RefreshSkipsUnused(next, exclude, from + 1, ok, i);
    }
  }

  lemma LeaverKeepsLog(s: State, i: nat, ok: set<nat>)
    requires Shape(s) && i < MAX_CLIENTS
    ensures Left(s, i, ok).logs[i] == s.logs[i]
  {
    var v := Vacated(s, i);
    assert !Used(v, i);
    if s.algo == ALGO_FFSPLIT {
      if Stable(v.ff.clients) { RoundLaws.UnusedKeepsLog(v, ok, i); }
    } else {
      RefreshSkipsUnused(v, -1, 0, ok, i);
    }
  }

  /** What is left after session `gone`, on slot `i`, closed. */
  predicate Closed(w: World, gone: nat, i: nat, r: World)
    requires Shape(w.server) && Shape(r.server) && i < MAX_CLIENTS
  {
    && r.conns == w.conns - {gone}
    && r.server.ff.clients == WithoutSlot(w.server.ff.clients, i) && r.server.logs[i] == w.server.logs[i]
  }

  lemma UnaccountedAfterClose(w: World, gone: nat, i: nat, r: World, other: nat)
    requires Shape(w.server) && Shape(r.server) && i < MAX_CLIENTS && Closed(w, gone, i, r)
    requires MayHold(w.server.logs[i]) && other in w.conns && other != gone && w.conns[other].sess.slot == i
    ensures !Accounted(r)
  {
    hide MayHold;
    assert LiveHolder(r, other) && !Holder(r.server, i);
  }

  /** After a session closed, the table still knows every session that may hold an ACK --
      exactly when no other session used its slot, or the node could not hold an ACK. */
  lemma CloseAccountsExactly(w: World, t: Turn)
    requires WorldInv(w) && t.Close? && ConnOf(w, t.id).sess.slot >= 0
    ensures Accounted(Step(w, t)) <==>
            SoleOwner(w, t.id) || !MayHold(w.server.logs[ConnOf(w, t.id).sess.slot])
  {
    assert Shape(w.server);
    hide Left, Inv, TableOk, MayHold, Accounted, Owns;
    var i, r := ConnOf(w, t.id).sess.slot, Step(w, t);
    LeftSeats(w.server, i, t.ok);
    LeaverKeepsLog(w.server, i, t.ok);
    assert Closed(w, t.id, i, r);
    if !SoleOwner(w, t.id) && MayHold(w.server.logs[i]) {
      var other :| other in w.conns && other != t.id && w.conns[other].sess.slot == i;
      UnaccountedAfterClose(w, t.id, i, r, other);
    }
  }

  /** At every point of every run of an FFSplit cluster -- despite recomputes in mid-round,
      stale replies, joins and leaves -- all clients that may still hold an unrevoked ACK lie
      inside one decided set, the selection in force; outside phase 1 that is the current
      selection. Every turn must be admissible, and a decision must get a NACK out unless it
      refuses nobody that may hold an ACK. */
  lemma RunIsExclusive(turns: seq<Turn>)
    requires FairRun(Origin(), turns)
    ensures var w, s := Run(Origin(), turns), Run(Origin(), turns).server;
            s.algo == ALGO_FFSPLIT ==>
              && Exclusive(s) && LiveExclusive(w)
              && DecidedSet(s, InForce(Origin(), turns, [])) && HoldersWithin(s, InForce(Origin(), turns, []))
              && (s.phase != 1 ==> HoldersWithin(s, s.ff.quorate))
  {
    RunKeeps(Origin(), turns);
    HoldersInForce(Origin(), turns, []);
    InForceDecided(Origin(), turns, []);
  }

  // ---------- Working transports are enough ----------

  lemma RecomputedDelivers(s: State, ok: set<nat>)
    requires Shape(s) && RoundLaws.Delivers(ok)
    ensures NacksGetThrough(s, Recomputed(s, ok))
  {
    if Stable(s.ff.clients) {
      hide Recomputed, Stable;
      var r := Recomputed(s, ok);
      RecomputedElsewhere(s, ok);
      forall i | 0 <= i < MAX_CLIENTS
        ensures !Due(r, i, NACK_DUE)
      {
        if Used(r, i) {
          assert Used(s, i);
          RecomputedAt(s, ok, i);
        }
      }
    }
  }

  lemma DeliveredGetsThrough(w: World, t: Turn)
    requires Shape(w.server) && RoundLaws.Delivers(Transports(t))
    ensures NacksGetThrough(w.server, Step(w, t).server)
  {
    hide FrameStep, Recomputed, Answered, Joined, RefreshedFrom, RoundLaws.Delivers;
    var s, c, r := w.server, ConnOf(w, t.id), Step(w, t).server;
    match t {
      case Close(_, ok) =>
        if c.sess.slot >= 0 {
          var v := Vacated(s, c.sess.slot);
          RefreshFrame(v, -1, 0, ok);
          RecomputedDelivers(v, ok);
          assert forall i, a :: Due(Forgotten(Recomputed(v, ok)), i, a) <==> Due(Recomputed(v, ok), i, a);
        }
      case Frame(_, frame, env) =>
        if !c.closing {
          var q, e := FrameEffect(s, c.sess, frame, env);
          match e {
            case Decides => RecomputedDelivers(q, env.ok);
            case Answers(i, n) => AnsweredDecidesNothing(q, i, n, env.ok);
            case Joins(id, mode, node, algo) => JoinDecidesNothing(q, id, mode, node, algo);
            case _ =>
          }
        }
    }
  }

  lemma JoinDecidesNothing(s: State, id: u32, tbMode: u8, tbNode: u32, algo: u16)
    requires Shape(s)
    ensures Joined(s, id, tbMode, tbNode, algo).decisions == s.decisions
  {}

  // ---------- One session per node is enough ----------

  /** An accepted INIT never names a node that is already connected. */
  ghost predicate FreshNode(w: World, t: Turn)
    requires Shape(w.server)
  {
    Inits(w, t) ==> SlotOf(w.server.ff.clients, InitNode(w, t)) < 0
  }

  predicate SlotsApart(w: World) {
    forall a, b :: a in w.conns && b in w.conns && a != b && w.conns[a].sess.slot >= 0 ==>
      w.conns[a].sess.slot != w.conns[b].sess.slot
  }

  lemma FrameSlot(w: World, t: Turn)
    requires Shape(w.server) && t.Frame? && FreshNode(w, t) && !ConnOf(w, t.id).closing
    ensures var c, o := ConnOf(w, t.id).sess, FrameStep(w.server, ConnOf(w, t.id).sess, t.frame, t.env).sess;
            o.slot == c.slot || (o.slot >= 0 && !Used(w.server, o.slot))
  {
    hide M.DecodeOf, Joined, Recomputed, Refreshed, Answered, LmsDecided, Considered;
  }

  lemma FreshKeepsApart(w: World, t: Turn)
    requires WorldInv(w) && SlotsApart(w) && FreshNode(w, t)
    ensures SlotsApart(Step(w, t))
  {
    assert Shape(w.server);
    if t.Frame? && !ConnOf(w, t.id).closing { FrameSlot(w, t); }
    hide Inv, TableOk, FrameStep, LeaveStep, FreshNode;
    var r := Step(w, t);
    forall a, b | a in r.conns && b in r.conns && a != b && r.conns[a].sess.slot >= 0
      ensures r.conns[a].sess.slot != r.conns[b].sess.slot
    {
      if a != t.id { assert Owns(w.server, w.conns[a].sess); }
      if b != t.id { assert Owns(w.server, w.conns[b].sess); }
    }
  }

  /** All pushes of the run succeed and no node has two live sessions. */
  ghost predicate CleanRun(w: World, turns: seq<Turn>)
    requires Shape(w.server)
    decreases |turns|
  {
    turns == [] ||
    (RoundLaws.Delivers(Transports(turns[0])) && FreshNode(w, turns[0]) && CleanRun(Step(w, turns[0]), turns[1..]))
  }

  lemma {:induction false} CleanIsFair(w: World, turns: seq<Turn>)
    requires WorldInv(w) && SlotsApart(w) && CleanRun(w, turns)
    ensures FairRun(w, turns)
    decreases |turns|
  {
    assert Shape(w.server);
    hide Step, Admissible, FreshNode, SlotsApart, NacksGetThrough, RoundLaws.Delivers, Inv, TableOk;
    if turns != [] {
      DeliveredGetsThrough(w, turns[0]);
      StepKeeps(w, turns[0]);
      FreshKeepsApart(w, turns[0]);
      CleanIsFair(Step(w, turns[0]), turns[1..]);
    }
  }

  /** The same with working transports and one session per node. */
  lemma CleanRunIsExclusive(turns: seq<Turn>)
    requires CleanRun(Origin(), turns)
    ensures var s := Run(Origin(), turns).server;
            s.algo == ALGO_FFSPLIT ==>
              DecidedSet(s, InForce(Origin(), turns, [])) && HoldersWithin(s, InForce(Origin(), turns, []))
  {
    CleanIsFair(Origin(), turns);
    RunIsExclusive(turns);
  }
}
