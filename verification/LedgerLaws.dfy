/** The table is what the clients said: in every fair run each connected slot holds exactly
    the settings and reports of the accepted frames of its node, and an empty table is as
    good as new. */
module LedgerLaws {
  import opened Defs
  import opened Wire
  import opened FFSplit
  import opened FFSplitLaws
  import opened Push
  import opened PushLaws
  import opened Turns
  import opened RunLaws
  import M = Msg

  // ---------- A ledger kept from the frames alone ----------

  /** What a node told about itself. */
  datatype Profile = Profile(
    tbMode: u8, tbNode: u32, kap: bool, cfg: seq<u32>, memb: seq<u32>,
    ringNode: u32, ringSeq: u64, hasRing: bool, heur: u8)

  /** The profiles of the connected nodes. */
  type Ledger = map<u32, Profile>

  function Ids(m: M.Msg): (ids: seq<u32>)
    ensures |ids| == |m.nodes|
  {
    seq(|m.nodes|, k requires 0 <= k < |m.nodes| => m.nodes[k].nodeId)
  }

  /** A node that just joined: its tie-breaker, and no report yet. */
  function Newcomer(tie: M.Tie): Profile {
    Profile(tie.mode, tie.node, false, [], [], 0, 0, false, HEUR_UNDEFINED)
  }

  function WithRing(p: Profile, ring: Option<M.Ring>): Profile {
    if ring.Some? then p.(ringNode := ring.value.node, ringSeq := ring.value.sn, hasRing := true) else p
  }

  function WithHeur(p: Profile, heur: Option<u8>): Profile {
    if heur.Some? then p.(heur := heur.value) else p
  }

  /** An accepted report. LMS keeps no configs and ignores heuristics changes. */
  function Updated(p: Profile, m: M.Msg, reply: Reply, lms: bool): Profile {
    if !reply.Send? then p
    else if reply.request.NodeListReply? then
      if m.listType == Some(MEMBERSHIP) then WithHeur(WithRing(p.(memb := Ids(m)), m.ring), m.heur)
      else if m.listType == Some(QUORUM) || lms then p
      else p.(cfg := Ids(m))
    else if reply.request.HeuristicsChangeReply? then if lms then p else WithHeur(p, m.heur)
    else if reply.request.SetOptionReply? && m.kap.Some? then p.(kap := m.kap.value != 0)
    else p
  }

  /** A second INIT of a connected node renews the tie-breaker and forgets the heuristics. */
  function AfterInit(l: Ledger, node: u32, tie: M.Tie): Ledger {
    l[node := if node in l then l[node].(tbMode := tie.mode, tbNode := tie.node, heur := HEUR_UNDEFINED)
              else Newcomer(tie)]
  }

  predicate Welcomed(r: Reply) {
    r.Send? && r.request.InitReply? && r.request.error == 0
  }

  /** The ledger after a frame of session `c` that was answered with `reply`. */
  ghost function HeardFrame(l: Ledger, c: Sess, frame: Bytes, reply: Reply, lms: bool): Ledger {
    match M.DecodeOf(frame, RX_SIZE)
    case Err(_) => l
    case Ok(m) =>
      if c.stage == PreinitDone && Welcomed(reply) && m.nodeId.Some? && m.tie.Some? then
        AfterInit(l, m.nodeId.value, m.tie.value)
      else if c.stage == Active && c.node in l then l[c.node := Updated(l[c.node], m, reply, lms)]
      else l
  }

  ghost function Heard(l: Ledger, w: World, t: Turn): Ledger
    requires Shape(w.server)
  {
    var c := ConnOf(w, t.id);
    match t
    case Close(_, _) => if c.sess.stage == Active then l - {c.sess.node} else l
    case Frame(_, frame, env) =>
      if c.closing then l
      else HeardFrame(l, c.sess, frame, FrameStep(w.server, c.sess, frame, env).reply, w.server.algo == ALGO_LMS)
  }

  ghost function LedgerAfter(w: World, l: Ledger, turns: seq<Turn>): Ledger
    requires Shape(w.server)
    decreases |turns|
  {
    if turns == [] then l else LedgerAfter(Step(w, turns[0]), Heard(l, w, turns[0]), turns[1..])
  }

  // ---------- The table agrees with the ledger ----------

  function ProfileOf(cl: Client): Profile {
    Profile(cl.tbMode, cl.tbNode, cl.kap, cl.cfg, cl.memb, cl.ringNode, cl.ringSeq, cl.hasRing, cl.heur)
  }

  /** The connected nodes are those of the ledger, each with its profile. */
  ghost predicate Recorded(t: seq<Client>, l: Ledger) {
    && (forall i :: 0 <= i < |t| && t[i].used ==> t[i].nodeId in l && ProfileOf(t[i]) == l[t[i].nodeId])
    && (forall node :: node in l ==> exists i :: 0 <= i < |t| && t[i].used && t[i].nodeId == node)
  }

  /** Slot `i` of the table after a request of its client. */
  predicate SlotUpdated(t: seq<Client>, i: nat, p: Profile, r: seq<Client>)
    requires i < |t| == |r|
  {
    && (forall k :: 0 <= k < |t| && k != i ==> r[k] == t[k])
    && r[i].used == t[i].used && r[i].nodeId == t[i].nodeId && ProfileOf(r[i]) == p
  }

  /** The table of the outcome is that of `s` with the caller's report stored. */
  ghost predicate Stored(s: State, c: Sess, m: M.Msg, o: Outcome)
    requires Shape(s) && c.slot >= 0
  {
    var t := s.ff.clients;
    && Shape(o.server)
    && SlotUpdated(t, c.slot, Updated(ProfileOf(t[c.slot]), m, o.reply, s.algo == ALGO_LMS), o.server.ff.clients)
  }

  lemma StoredReport(cl: Client, m: M.Msg)
    requires |m.nodes| <= FFSplit.MAX_NODES
    ensures var r := MembershipStored(cl, m);
            r.used == cl.used && r.nodeId == cl.nodeId
            && ProfileOf(r) == WithHeur(WithRing(ProfileOf(cl).(memb := Ids(m)), m.ring), m.heur)
    ensures var r := ConfigStored(cl, m);
            r.used == cl.used && r.nodeId == cl.nodeId && ProfileOf(r) == ProfileOf(cl).(cfg := Ids(m))
  {
    assert Ids(m) == NodeIds(m.nodes);
  }

  lemma StoresClient(s: State, c: Sess, m: M.Msg, o: Outcome, cl: Client)
    requires Shape(s) && c.slot >= 0 && Shape(o.server) && o.server.ff.clients == s.ff.clients[c.slot := cl]
    requires cl.used == s.ff.clients[c.slot].used && cl.nodeId == s.ff.clients[c.slot].nodeId
    requires ProfileOf(cl) == Updated(ProfileOf(s.ff.clients[c.slot]), m, o.reply, s.algo == ALGO_LMS)
    ensures Stored(s, c, m, o)
  {}

  lemma LmsListStores(s: State, c: Sess, m: M.Msg, ok: set<nat>)
    requires Shape(s) && s.algo == ALGO_LMS && ListComplete(c, m) && |m.nodes| <= FFSplit.MAX_NODES
    ensures Stored(s, c, m, LmsListStep(s, c, m, ok))
  {
    var cl := s.ff.clients[c.slot];
    StoredReport(cl, m);
    hide Stored, RefreshedFrom, Lms.Vote, Lms.Saved, MembershipStored, ProfileOf, WithRing, WithHeur;
    var o := LmsListStep(s, c, m, ok);
    if m.listType == Some(MEMBERSHIP) && ListsSelf(c, m) {
      var mr := WithClient(s, c.slot, MembershipStored(cl, m));
      RefreshFrame(LmsDecided(mr, c.slot).0, c.slot, 0, ok);
      StoresClient(s, c, m, o, MembershipStored(cl, m));
    } else {
      StoresClient(s, c, m, o, cl);
    }
  }

  lemma FFListStores(s: State, c: Sess, m: M.Msg, ok: set<nat>)
    requires Shape(s) && s.algo != ALGO_LMS && ListComplete(c, m) && |m.nodes| <= FFSplit.MAX_NODES
    ensures Stored(s, c, m, FFListStep(s, c, m, ok))
  {
    var cl := s.ff.clients[c.slot];
    StoredReport(cl, m);
    hide Stored, Recomputed, MembershipStored, ConfigStored, ProfileOf, WithRing, WithHeur;
    var o := FFListStep(s, c, m, ok);
    RecomputeSeats(WithClient(s, c.slot, MembershipStored(cl, m)), ok);
    RecomputeSeats(WithClient(s, c.slot, ConfigStored(cl, m)), ok);
    if m.listType == Some(QUORUM) || !ListsSelf(c, m) {
      StoresClient(s, c, m, o, cl);
    } else {
      StoresClient(s, c, m, o, if m.listType == Some(MEMBERSHIP) then MembershipStored(cl, m) else ConfigStored(cl, m));
    }
  }

  lemma ListStores(s: State, c: Sess, m: M.Msg, ok: set<nat>)
    requires Shape(s) && c.slot >= 0 && |m.nodes| <= FFSplit.MAX_NODES
    ensures Stored(s, c, m, ListStep(s, c, m, ok))
  {
    hide LmsListStep, FFListStep;
    if ListComplete(c, m) {
      if s.algo == ALGO_LMS { LmsListStores(s, c, m, ok); } else { FFListStores(s, c, m, ok); }
    }
  }

  lemma AskStores(s: State, c: Sess, m: M.Msg, ok: set<nat>)
    requires Shape(s) && c.slot >= 0
    ensures Stored(s, c, m, AskStep(s, c, m, ok))
  {
    hide Stored, RefreshedFrom, Lms.Vote, Lms.Saved;
    RefreshFrame(LmsDecided(s, c.slot).0, c.slot, 0, ok);
    StoresClient(s, c, m, AskStep(s, c, m, ok), s.ff.clients[c.slot]);
  }

  lemma HeurStores(s: State, c: Sess, m: M.Msg, ok: set<nat>)
    requires Shape(s) && c.slot >= 0
    ensures Stored(s, c, m, HeurStep(s, c, m, ok))
  {
    hide Stored, Recomputed;
    var cl, o := s.ff.clients[c.slot], HeurStep(s, c, m, ok);
    if s.algo == ALGO_LMS || m.sn == None || (m.heur != Some(HEUR_PASS) && m.heur != Some(HEUR_FAIL)) {
      StoresClient(s, c, m, o, cl);
    } else {
      RecomputeSeats(WithClient(s, c.slot, cl.(heur := m.heur.value)), ok);
      StoresClient(s, c, m, o, cl.(heur := m.heur.value));
    }
  }

  lemma OptionStores(s: State, c: Sess, m: M.Msg)
    requires Shape(s) && c.slot >= 0
    ensures Stored(s, c, m, OptionStep(s, c, m))
  {}

  lemma ReplyStores(s: State, c: Sess, m: M.Msg, ok: set<nat>)
    requires Shape(s) && c.slot >= 0
    ensures Stored(s, c, m, VoteReplyStep(s, c, m, ok))
  {
    hide Stored, Answered;
    if m.sn.Some? { AnswerKeepsTable(s, c.slot, m.sn.value, ok); }
    StoresClient(s, c, m, VoteReplyStep(s, c, m, ok), s.ff.clients[c.slot]);
  }

  lemma ActiveStores(s: State, c: Sess, m: M.Msg, frame: Bytes, ok: set<nat>)
    requires Shape(s) && c.slot >= 0 && |m.nodes| <= FFSplit.MAX_NODES && |frame| >= M.HEADER_LEN
    ensures Stored(s, c, m, ActiveStep(s, c, m, frame, ok))
  {
    hide Stored, ListStep, AskStep, HeurStep, OptionStep, VoteReplyStep;
    if m.kind == M.NODE_LIST {
      ListStores(s, c, m, ok);
    } else if m.kind == M.ASK_FOR_VOTE {
      AskStores(s, c, m, ok);
    } else if m.kind == M.HEURISTICS_CHANGE {
      HeurStores(s, c, m, ok);
    } else if m.kind == M.SET_OPTION {
      OptionStores(s, c, m);
    } else if m.kind == M.VOTE_INFO_REPLY {
      ReplyStores(s, c, m, ok);
    } else {
      StoresClient(s, c, m, ActiveStep(s, c, m, frame, ok), s.ff.clients[c.slot]);
    }
  }

  lemma AnswerKeepsTable(s: State, i: nat, n: nat, ok: set<nat>)
    requires Shape(s) && i < MAX_CLIENTS
    ensures Answered(s, i, n, ok).ff == s.ff
  {}

  lemma UpdateRecorded(t: seq<Client>, i: nat, p: Profile, r: seq<Client>, l: Ledger)
    requires i < |t| == |r| && Recorded(t, l) && DistinctNodes(t) && t[i].used && SlotUpdated(t, i, p, r)
    ensures Recorded(r, l[t[i].nodeId := p])
  {
    var l' := l[t[i].nodeId := p];
    forall node | node in l'
      ensures exists k :: 0 <= k < |r| && r[k].used && r[k].nodeId == node
    {
      var k :| 0 <= k < |t| && t[k].used && t[k].nodeId == node;
      assert r[k].used && r[k].nodeId == node;
    }
  }

  lemma JoinRecorded(s: State, id: u32, tie: M.Tie, algo: u16, l: Ledger)
    requires Shape(s) && Recorded(s.ff.clients, l) && DistinctNodes(s.ff.clients) && SlotFor(s.ff.clients, id) >= 0
    ensures Recorded(Joined(s, id, tie.mode, tie.node, algo).ff.clients, AfterInit(l, id, tie))
  {
    var t, i := s.ff.clients, SlotFor(s.ff.clients, id);
    var r := Joined(s, id, tie.mode, tie.node, algo).ff.clients;
    var known := SlotOf(t, id) >= 0;
    assert r[i].used && r[i].nodeId == id && forall k :: 0 <= k < |t| && k != i ==> r[k] == t[k];
    assert known <==> id in l by {
      if id in l { var k :| 0 <= k < |t| && t[k].used && t[k].nodeId == id; assert Holds(t, k, id); }
    }
    forall k | 0 <= k < |t| && k != i && t[k].used
      ensures t[k].nodeId != id
    {
      assert Holds(t, k, id) ==> known;
    }
    forall node | node in AfterInit(l, id, tie)
      ensures exists k :: 0 <= k < |r| && r[k].used && r[k].nodeId == node
    {
      if node == id {
        assert r[i].used;
      } else {
        var k :| 0 <= k < |t| && t[k].used && t[k].nodeId == node;
        assert k != i;
        assert r[k].used && r[k].nodeId == node;
      }
    }
  }

  lemma LeaveRecorded(t: seq<Client>, i: nat, l: Ledger)
    requires i < |t| && t[i].used && Recorded(t, l) && DistinctNodes(t)
    ensures Recorded(WithoutSlot(t, i), l - {t[i].nodeId})
  {
    var r := WithoutSlot(t, i);
    forall node | node in l - {t[i].nodeId}
      ensures exists k :: 0 <= k < |r| && r[k].used && r[k].nodeId == node
    {
      var k :| 0 <= k < |t| && t[k].used && t[k].nodeId == node;
      assert r[k].used && r[k].nodeId == node;
    }
  }

  // ---------- Over whole runs ----------

  lemma FrameRecorded(s: State, c: Sess, frame: Bytes, env: Env, l: Ledger)
    requires Shape(s) && Owns(s, c) && DistinctNodes(s.ff.clients) && Recorded(s.ff.clients, l)
    ensures var o := FrameStep(s, c, frame, env);
            Recorded(o.server.ff.clients, HeardFrame(l, c, frame, o.reply, s.algo == ALGO_LMS))
  {
    hide M.DecodeOf, Recorded, ActiveStep, Joined, Stored, Updated, AfterInit, DistinctNodes, SlotFor;
    if M.DecodeOf(frame, RX_SIZE).Ok? {
      DecodedNodesFit(frame, RX_SIZE);
      var m := M.DecodeOf(frame, RX_SIZE).value;
      if c.stage == Active {
        ActiveStores(s, c, m, frame, env.ok);
        ActiveRecorded(s, c, m, ActiveStep(s, c, m, frame, env.ok), l);
      } else if c.stage == PreinitDone && m.kind == M.INIT && InitError(s.algo, m) == E_NONE
                && SlotFor(s.ff.clients, m.nodeId.value) >= 0 {
        JoinRecorded(s, m.nodeId.value, m.tie.value, m.algorithm.value, l);
      }
    }
  }

  lemma FrameTurnRecorded(w: World, t: Turn, l: Ledger)
    requires WorldInv(w) && t.Frame? && Recorded(w.server.ff.clients, l)
    ensures Recorded(Step(w, t).server.ff.clients, Heard(l, w, t))
  {
    assert Shape(w.server);
    hide Inv, Recorded, FrameStep, HeardFrame;
    var c := ConnOf(w, t.id);
    if !c.closing {
      assert Owns(w.server, c.sess);
      StepShape(w.server, c.sess, t.frame, t.env);
      FrameRecorded(w.server, c.sess, t.frame, t.env, l);
    }
  }

  lemma ActiveRecorded(s: State, c: Sess, m: M.Msg, o: Outcome, l: Ledger)
    requires Shape(s) && c.slot >= 0 && Stored(s, c, m, o) && Recorded(s.ff.clients, l)
    requires DistinctNodes(s.ff.clients) && Used(s, c.slot) && s.ff.clients[c.slot].nodeId == c.node
    ensures c.node in l
    ensures Recorded(o.server.ff.clients, l[c.node := Updated(l[c.node], m, o.reply, s.algo == ALGO_LMS)])
  {
    hide Updated;
    var t := s.ff.clients;
    UpdateRecorded(t, c.slot, Updated(ProfileOf(t[c.slot]), m, o.reply, s.algo == ALGO_LMS), o.server.ff.clients, l);
  }

  lemma CloseRecorded(w: World, t: Turn, l: Ledger)
    requires WorldInv(w) && t.Close? && Recorded(w.server.ff.clients, l)
    ensures Recorded(Step(w, t).server.ff.clients, Heard(l, w, t))
  {
    assert Shape(w.server);
    hide Left, Inv, Recorded;
    var c := ConnOf(w, t.id).sess;
    assert Owns(w.server, c);
    if c.slot >= 0 {
      LeftSeats(w.server, c.slot, t.ok);
      LeaveRecorded(w.server.ff.clients, c.slot, l);
    }
  }

  lemma {:induction false} RunRecorded(w: World, l: Ledger, turns: seq<Turn>)
    requires WorldInv(w) && FairRun(w, turns) && Recorded(w.server.ff.clients, l)
    ensures Recorded(Run(w, turns).server.ff.clients, LedgerAfter(w, l, turns))
    decreases |turns|
  {
    assert Shape(w.server);
    hide Step, Fair, Inv, TableOk, Heard, Recorded;
    if turns != [] {
      var t := turns[0];
      if t.Frame? { FrameTurnRecorded(w, t, l); } else { CloseRecorded(w, t, l); }
      StepKeeps(w, t);
      RunRecorded(Step(w, t), Heard(l, w, t), turns[1..]);
    }
  }

  /** In every fair run the table holds exactly the connected nodes, and the tie-breaker,
      keep-active flag, config, membership, ring and heuristics of each are those of the
      frames of its sessions that were accepted, the latest of each kind. */
  lemma TableIsWhatWasSaid(turns: seq<Turn>)
    requires FairRun(Origin(), turns)
    ensures Recorded(Run(Origin(), turns).server.ff.clients, LedgerAfter(Origin(), map[], turns))
  {
    assert WorldInv(Origin());
    RunRecorded(Origin(), map[], turns);
  }

  // ---------- The last one out ----------

  /** Without clients the server is as it started, but for saved votes and old traffic. */
  predicate AsNew(s: State)
    requires Shape(s)
  {
    (Empty(s) <==> s.algo == 0) && (Empty(s) ==> s.ff.quorate == [] && !s.decided && s.phase == 0)
  }

  lemma LeaveAsNew(s: State, i: nat, ok: set<nat>)
    requires Shape(s) && s.algo != 0 && i < MAX_CLIENTS
    ensures AsNew(Left(s, i, ok))
  {
    hide Recomputed, RefreshedFrom;
    var v := Vacated(s, i);
    RecomputeSeats(v, ok);
    RefreshFrame(v, -1, 0, ok);
  }

  lemma ActiveKeepsAlgo(s: State, c: Sess, m: M.Msg, frame: Bytes, ok: set<nat>)
    requires Shape(s) && |m.nodes| <= FFSplit.MAX_NODES && |frame| >= M.HEADER_LEN
    ensures ActiveStep(s, c, m, frame, ok).server.algo == s.algo
  {
    hide ActiveStep, Recomputed, Answered;
    var q, e := ActiveEffect(s, c, m, frame, ok);
    match e {
      case Decides => RecomputeSeats(q, ok);
      case Answers(i, n) => AnswerKeepsAlgo(q, i, n, ok);
      case _ =>
    }
  }

  lemma AnswerKeepsAlgo(s: State, i: nat, n: nat, ok: set<nat>)
    requires Shape(s) && i < MAX_CLIENTS
    ensures Answered(s, i, n, ok).algo == s.algo
  {}

  lemma JoinAsNew(s: State, id: u32, tbMode: u8, tbNode: u32, algo: u16)
    requires Shape(s) && SlotFor(s.ff.clients, id) >= 0 && algo != 0
    ensures AsNew(Joined(s, id, tbMode, tbNode, algo))
  {
    assert Used(Joined(s, id, tbMode, tbNode, algo), SlotFor(s.ff.clients, id));
  }

  lemma FrameAsNew(s: State, c: Sess, frame: Bytes, env: Env)
    requires Shape(s) && AsNew(s) && Owns(s, c) && Shape(FrameStep(s, c, frame, env).server)
    ensures AsNew(FrameStep(s, c, frame, env).server)
  {
    hide M.DecodeOf, ActiveStep, Joined, Stored, SlotFor, AsNew;
    if M.DecodeOf(frame, RX_SIZE).Ok? {
      DecodedNodesFit(frame, RX_SIZE);
      var m := M.DecodeOf(frame, RX_SIZE).value;
      if c.stage == Active {
        ActiveStores(s, c, m, frame, env.ok);
        ActiveKeepsAlgo(s, c, m, frame, env.ok);
        InUseAsNew(s, c, m, ActiveStep(s, c, m, frame, env.ok));
      } else if c.stage == PreinitDone && m.kind == M.INIT && InitError(s.algo, m) == E_NONE
                && SlotFor(s.ff.clients, m.nodeId.value) >= 0 {
        JoinAsNew(s, m.nodeId.value, m.tie.value.mode, m.tie.value.node, m.algorithm.value);
      }
    }
  }

  lemma InUseAsNew(s: State, c: Sess, m: M.Msg, o: Outcome)
    requires Shape(s) && AsNew(s) && c.slot >= 0 && Used(s, c.slot) && Stored(s, c, m, o) && o.server.algo == s.algo
    ensures AsNew(o.server)
  {
    hide Updated;
    assert Used(o.server, c.slot);
  }

  lemma StepAsNew(w: World, t: Turn)
    requires WorldInv(w) && AsNew(w.server)
    ensures AsNew(Step(w, t).server)
  {
    assert Shape(w.server);
    hide FrameStep, Left, Inv, AsNew;
    var c := ConnOf(w, t.id);
    assert Owns(w.server, c.sess);
    if t.Close? {
      if c.sess.slot >= 0 {
        SeatedHasAlgo(w.server, c.sess.slot);
        LeaveAsNew(w.server, c.sess.slot, t.ok);
      }
    } else if !c.closing {
      StepShape(w.server, c.sess, t.frame, t.env);
      FrameAsNew(w.server, c.sess, t.frame, t.env);
    }
  }

  lemma SeatedHasAlgo(s: State, i: nat)
    requires Inv(s) && Used(s, i)
    ensures s.algo != 0
  {}

  lemma {:induction false} RunAsNew(w: World, turns: seq<Turn>)
    requires WorldInv(w) && FairRun(w, turns) && AsNew(w.server)
    ensures AsNew(Run(w, turns).server)
    decreases |turns|
  {
    assert Shape(w.server);
    hide Step, Fair, Inv, TableOk, AsNew;
    if turns != [] {
      StepAsNew(w, turns[0]);
      StepKeeps(w, turns[0]);
      RunAsNew(Step(w, turns[0]), turns[1..]);
    }
  }

  /** In every fair run the server serves an algorithm exactly while somebody is connected;
      with the last client gone, no selection, decision or push round is left. */
  lemma LastOneOutResets(turns: seq<Turn>)
    requires FairRun(Origin(), turns)
    ensures AsNew(Run(Origin(), turns).server)
  {
    assert WorldInv(Origin());
    RunAsNew(Origin(), turns);
  }

  // ---------- A new session starts afresh ----------

  /** Nothing about the push state of slot `k` differs. */
  predicate PushStateKept(s: State, r: State, k: nat)
    requires Shape(s) && Shape(r) && k < MAX_CLIENTS
  {
    r.st[k] == s.st[k] && r.sn[k] == s.sn[k] && r.last[k] == s.last[k] && r.logs[k] == s.logs[k]
  }

  /** A welcomed INIT takes the slot of its node, or a free one, with nothing due, pending,
      counted or saved; every other slot keeps its push state, and nobody is pushed anything. */
  lemma InitStartsAfresh(s: State, c: Sess, frame: Bytes, env: Env)
    requires Shape(s) && c.stage == PreinitDone && M.DecodeOf(frame, RX_SIZE).Ok?
    requires Welcomed(FrameStep(s, c, frame, env).reply)
    ensures var o, node := FrameStep(s, c, frame, env), M.DecodeOf(frame, RX_SIZE).value.nodeId;
            var i, r := o.sess.slot, o.server;
            && Shape(r) && i >= 0 && o.sess.stage == Active && Used(r, i)
            && node == Some(r.ff.clients[i].nodeId) && node == Some(o.sess.node)
            && (s.ff.clients[i].used ==> node == Some(s.ff.clients[i].nodeId))
            && r.st[i] == NONE && r.sn[i] == 0 && r.last[i] == 0 && !o.sess.hasConfig && !o.sess.hasMemb
            && r.phase == s.phase && r.ff.quorate == s.ff.quorate
            && forall k :: 0 <= k < MAX_CLIENTS && k != i ==>
                 PushStateKept(s, r, k) && r.ff.clients[k] == s.ff.clients[k]
  {
    hide M.DecodeOf, Joined;
    DecodedNodesFit(frame, RX_SIZE);
    var m := M.DecodeOf(frame, RX_SIZE).value;
    JoinStartsAfresh(s, m.nodeId.value, m.tie.value.mode, m.tie.value.node, m.algorithm.value);
  }

  lemma JoinStartsAfresh(s: State, id: u32, tbMode: u8, tbNode: u32, algo: u16)
    requires Shape(s) && SlotFor(s.ff.clients, id) >= 0
    ensures var i, r := SlotFor(s.ff.clients, id), Joined(s, id, tbMode, tbNode, algo);
            && Used(r, i) && r.ff.clients[i].nodeId == id && (s.ff.clients[i].used ==> s.ff.clients[i].nodeId == id)
            && r.st[i] == NONE && r.sn[i] == 0 && r.last[i] == 0
            && r.phase == s.phase && r.ff.quorate == s.ff.quorate
            && forall k :: 0 <= k < MAX_CLIENTS && k != i ==>
                 PushStateKept(s, r, k) && r.ff.clients[k] == s.ff.clients[k]
  {}
}
