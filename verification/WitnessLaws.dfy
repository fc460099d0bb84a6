/** Concrete runs from the first frame on: a client comes to hold an ACK, a disconnect grants
    a client without a config, and each assumption of the run theorems, once dropped, lets
    two decided sets hold ACKs. */
module WitnessLaws {
  import opened Defs
  import opened Wire
  import opened FFSplit
  import opened FFSplitLaws
  import opened Push
  import opened PushLaws
  import opened Turns
  import opened RunLaws
  import M = Msg
  import GrantLaws
  import MsgLaws
  import RoundLaws

  // ---------- Runs built turn by turn ----------

  const ALL: set<nat> := {0, 1, 2, 3, 4, 5, 6, 7}

  function Over(ok: set<nat>): Env {
    Env(ok, true, false, 0)
  }

  /** What the turns of these runs meet: every push succeeds, and the turn is admissible, or
      even names no node that is connected already. */
  ghost predicate Allowed(w: World, t: Turn, clean: bool)
    requires Shape(w.server)
  {
    RoundLaws.Delivers(Transports(t)) && if clean then FreshNode(w, t) else Admissible(w, t)
  }

  ghost predicate Course(w: World, turns: seq<Turn>, clean: bool)
    requires Shape(w.server)
  {
    if clean then CleanRun(w, turns) else FairRun(w, turns)
  }

  ghost predicate Reached(w: World, clean: bool) {
    exists turns: seq<Turn> :: Course(Origin(), turns, clean) && Run(Origin(), turns) == w
  }

  lemma {:induction false} Extended(w: World, turns: seq<Turn>, t: Turn, clean: bool)
    requires Shape(w.server) && Course(w, turns, clean) && Course(Run(w, turns), [t], clean)
    ensures Course(w, turns + [t], clean) && Run(w, turns + [t]) == Step(Run(w, turns), t)
    decreases |turns|
  {
    hide Step, Fair, FreshNode, RoundLaws.Delivers;
    if turns == [] {
      assert turns + [t] == [t] && [t][1..] == [];
    } else {
      assert (turns + [t])[0] == turns[0] && (turns + [t])[1..] == turns[1..] + [t];
      Extended(Step(w, turns[0]), turns[1..], t, clean);
    }
  }

  lemma Reach(w: World, t: Turn, r: World, clean: bool)
    requires Shape(w.server) && Reached(w, clean) && Step(w, t) == r && Allowed(w, t, clean)
    ensures Reached(r, clean)
  {
    DeliveredGetsThrough(w, t);
    hide Step, FreshNode, Admissible, NacksGetThrough, RoundLaws.Delivers;
    var turns :| Course(Origin(), turns, clean) && Run(Origin(), turns) == w;
    assert [t][1..] == [] && CleanRun(r, []) && FairRun(r, []);
    assert Course(w, [t], clean);
    Extended(Origin(), turns, t, clean);
    assert Course(Origin(), turns + [t], clean) && Run(Origin(), turns + [t]) == r;
  }

  lemma OriginReached(clean: bool)
    ensures Reached(Origin(), clean)
  {
    assert Course(Origin(), [], clean) && Run(Origin(), []) == Origin();
  }

  // ---------- Frames of a client ----------

  function FrameOf(r: M.Request): Bytes {
    match M.Encode(r, RX_SIZE) case Ok(b) => b case Err(_) => []
  }

  lemma FrameDecodes(r: M.Request)
    requires MsgLaws.Valid(r) && |M.Options(r)| <= 100 && forall o :: o in M.Options(r) ==> Small(o)
    ensures M.DecodeOf(FrameOf(r), RX_SIZE) == Ok(MsgLaws.Arguments(r)) && |FrameOf(r)| >= M.HEADER_LEN
  {
    hide M.Options, M.DecodeOf, MsgLaws.Arguments, MsgLaws.Valid, Small;
    SmallOptionsFit(M.Options(r), RX_SIZE - M.HEADER_LEN);
    M.EmitFits(M.Options(r), RX_SIZE - M.HEADER_LEN);
    MsgLaws.RoundTrip(r, RX_SIZE, RX_SIZE);
  }

  const HELLO: M.Request := M.Preinit(None, [99])

  function Enter(node: u32): M.Request {
    M.Init(None, ALGO_FFSPLIT, node, 8000, M.Tie(TB_LOWEST, 0), M.Ring(node, 10))
  }

  function NodesOf(ids: Ids): (ns: seq<M.Node>)
    ensures |ns| == |ids| && forall k :: 0 <= k < |ids| ==> ns[k] == M.Node(ids[k], None, None)
  {
    seq(|ids|, k requires 0 <= k < |ids| => M.Node(ids[k], None, None))
  }

  predicate Listable(node: u32, ids: Ids) {
    node in ids && 0 !in ids
  }

  function Report(listType: u8, node: u32, ids: Ids): M.Request {
    M.NodeList(1, listType, Some(M.Ring(node, 10)), None, None, None, NodesOf(ids))
  }

  lemma HelloDecodes()
    ensures M.DecodeOf(FrameOf(HELLO), RX_SIZE) == Ok(MsgLaws.Arguments(HELLO))
  {
    FrameDecodes(HELLO);
  }

  lemma EnterDecodes(node: u32)
    ensures M.DecodeOf(FrameOf(Enter(node)), RX_SIZE) == Ok(MsgLaws.Arguments(Enter(node)))
  {
    FrameDecodes(Enter(node));
  }

  lemma ConfirmDecodes(n: u32)
    ensures M.DecodeOf(FrameOf(M.VoteInfoReply(n)), RX_SIZE) == Ok(MsgLaws.Arguments(M.VoteInfoReply(n)))
  {
    FrameDecodes(M.VoteInfoReply(n));
  }

  lemma ReportIsSmall(listType: u8, node: u32, ids: Ids)
    requires listType <= 3 && 0 !in ids
    ensures |M.Options(Report(listType, node, ids))| <= 100
    ensures forall o :: o in M.Options(Report(listType, node, ids)) ==> Small(o)
  {
    var nodes := M.NodeOpts(NodesOf(ids));
    forall o | o in nodes
      ensures Small(o)
    {
      var k :| 0 <= k < |nodes| && nodes[k] == o;
    }
    hide M.NodeOpts, M.NodeBytes;
    assert M.Options(Report(listType, node, ids))
        == [M.U32(M.O_SEQ, 1), M.U8(M.O_LIST_TYPE, listType), M.RingId(M.O_RING, M.Ring(node, 10))] + nodes;
  }

  lemma ReportDecodes(listType: u8, node: u32, ids: Ids)
    requires listType <= 3 && 0 !in ids
    ensures M.DecodeOf(FrameOf(Report(listType, node, ids)), RX_SIZE)
            == Ok(MsgLaws.Arguments(Report(listType, node, ids)))
    ensures |FrameOf(Report(listType, node, ids))| >= M.HEADER_LEN
  {
    ReportIsSmall(listType, node, ids);
    hide M.DecodeOf, M.Options, MsgLaws.Arguments, Small, FrameOf;
    FrameDecodes(Report(listType, node, ids));
  }

  // ---------- The turns of a client ----------

  const GREETED: Conn := Conn(NEW_SESSION.(stage := PreinitDone), false)

  function Seated(node: u32, slot: SlotRef, hasConfig: bool, hasMemb: bool): Conn {
    Conn(Sess(Active, node, M.Ring(node, 10), true, slot, hasConfig, hasMemb), false)
  }

  lemma StepOf(w: World, t: Turn)
    requires Shape(w.server) && t.Frame? && !ConnOf(w, t.id).closing
    ensures var o := FrameStep(w.server, ConnOf(w, t.id).sess, t.frame, t.env);
            Shape(o.server) && Step(w, t) == World(o.server, w.conns[t.id := Conn(o.sess, o.reply.Drop?)])
  {
    StepShape(w.server, ConnOf(w, t.id).sess, t.frame, t.env);
    hide FrameStep;
  }

  lemma NoInitAllowed(w: World, t: Turn, clean: bool)
    requires Shape(w.server) && t.Frame? && RoundLaws.Delivers(Transports(t)) && M.DecodeOf(t.frame, RX_SIZE).Ok?
    requires M.DecodeOf(t.frame, RX_SIZE).value.kind != M.INIT
    ensures Allowed(w, t, clean)
  {
    hide M.DecodeOf;
  }

  lemma HelloFrame(s: State)
    requires Shape(s)
    ensures FrameStep(s, NEW_SESSION, FrameOf(HELLO), Over(ALL)).server == s
    ensures FrameStep(s, NEW_SESSION, FrameOf(HELLO), Over(ALL)).sess == GREETED.sess
    ensures FrameStep(s, NEW_SESSION, FrameOf(HELLO), Over(ALL)).reply.Send?
  {
    HelloDecodes();
    hide M.DecodeOf, FrameOf;
  }

  lemma GreetTurn(w: World, id: nat, clean: bool)
    requires Shape(w.server) && Reached(w, clean) && id !in w.conns
    ensures Reached(World(w.server, w.conns[id := GREETED]), clean)
  {
    hide M.DecodeOf, FrameOf, FrameStep, Step, Allowed, Reached;
    var t := Frame(id, FrameOf(HELLO), Over(ALL));
    HelloDecodes();
    HelloFrame(w.server);
    NoInitAllowed(w, t, clean);
    StepOf(w, t);
    Reach(w, t, World(w.server, w.conns[id := GREETED]), clean);
  }

  function Entered(s: State, node: u32): (r: State)
    requires Shape(s)
    ensures Shape(r)
  {
    Joined(s, node, TB_LOWEST, 0, ALGO_FFSPLIT)
  }

  /** What the INIT of `node` on a greeted connection does. */
  lemma EnterStep(w: World, id: nat, node: u32, slot: SlotRef)
    requires Shape(w.server) && id in w.conns && w.conns[id] == GREETED && node != 0
    requires w.server.algo == 0 || w.server.algo == ALGO_FFSPLIT
    requires SlotFor(w.server.ff.clients, node) == slot >= 0
    ensures var t := Frame(id, FrameOf(Enter(node)), Over(ALL));
            && Step(w, t) == World(Entered(w.server, node), w.conns[id := Seated(node, slot, false, false)])
            && Inits(w, t) && InitNode(w, t) == node && RoundLaws.Delivers(Transports(t))
  {
    var t := Frame(id, FrameOf(Enter(node)), Over(ALL));
    EnterDecodes(node);
    hide M.DecodeOf, FrameOf, Joined;
    StepOf(w, t);
  }

  lemma EnterTurn(w: World, id: nat, node: u32, slot: SlotRef, clean: bool)
    requires Shape(w.server) && Reached(w, clean) && id in w.conns && w.conns[id] == GREETED && node != 0
    requires w.server.algo == 0 || w.server.algo == ALGO_FFSPLIT
    requires SlotFor(w.server.ff.clients, node) == slot >= 0
    requires if clean then SlotOf(w.server.ff.clients, node) < 0 else !Unconfirmed(w.server, node)
    ensures Reached(World(Entered(w.server, node), w.conns[id := Seated(node, slot, false, false)]), clean)
  {
    var t := Frame(id, FrameOf(Enter(node)), Over(ALL));
    EnterStep(w, id, node, slot);
    hide Step, Entered, FrameOf, Reached, Inits, InitNode, Unconfirmed;
    Reach(w, t, World(Entered(w.server, node), w.conns[id := Seated(node, slot, false, false)]), clean);
  }

  /** A client of these runs: fixed tie-breaker, the ring of its own node once it reported. */
  function Member(node: u32, cfg: Ids, memb: Ids): Client {
    FreshClient(node).(cfg := cfg, memb := memb, hasRing := memb != [],
                       ringNode := if memb != [] then node else 0, ringSeq := if memb != [] then 10 else 0)
  }

  function Reporting(listType: u8, node: u32, cfg: Ids, memb: Ids, ids: Ids): Client {
    if listType == MEMBERSHIP then Member(node, cfg, ids) else Member(node, ids, memb)
  }

  function Known(c: Conn, listType: u8): Conn {
    if listType == MEMBERSHIP then c.(sess := c.sess.(hasMemb := true)) else c.(sess := c.sess.(hasConfig := true))
  }

  /** The table with the report stored, and the state once it was considered. */
  ghost function Considering(s: State, slot: nat, cl: Client, c: Conn, ok: set<nat>): (r: State)
    requires Shape(s) && slot < MAX_CLIENTS
    ensures Shape(r)
  {
    var q := WithClient(s, slot, cl);
    if c.sess.hasConfig && c.sess.hasMemb then Recomputed(q, ok) else q
  }

  lemma ListOutcome(s: State, c: Conn, listType: u8, node: u32, slot: SlotRef, cfg: Ids, memb: Ids, ids: Ids,
                    ok: set<nat>)
    requires Shape(s) && s.algo == ALGO_FFSPLIT && slot >= 0 && s.ff.clients[slot] == Member(node, cfg, memb)
    requires c == Seated(node, slot, c.sess.hasConfig, c.sess.hasMemb) && Listable(node, ids)
    requires listType == INITIAL_CONFIG || listType == MEMBERSHIP
    ensures var o := ListStep(s, c.sess, MsgLaws.Arguments(Report(listType, node, ids)), ok);
            && o.server == Considering(s, slot, Reporting(listType, node, cfg, memb, ids), Known(c, listType), ok)
            && o.sess == Known(c, listType).sess && o.reply.Send?
  {
    hide Recomputed, Refreshed;
    var m := MsgLaws.Arguments(Report(listType, node, ids));
    assert NodeIds(m.nodes) == ids;
    var cl := s.ff.clients[slot];
    if listType == MEMBERSHIP {
      assert MembershipStored(cl, m) == Member(node, cfg, ids);
    } else {
      assert ConfigStored(cl, m) == Member(node, ids, memb);
    }
  }

  lemma ReportStep(w: World, id: nat, listType: u8, node: u32, slot: SlotRef, cfg: Ids, memb: Ids, ids: Ids,
                   ok: set<nat>)
    requires Shape(w.server) && w.server.algo == ALGO_FFSPLIT && slot >= 0 && id in w.conns
    requires w.server.ff.clients[slot] == Member(node, cfg, memb) && Listable(node, ids)
    requires w.conns[id] == Seated(node, slot, w.conns[id].sess.hasConfig, w.conns[id].sess.hasMemb)
    requires listType == INITIAL_CONFIG || listType == MEMBERSHIP
    ensures var t, c := Frame(id, FrameOf(Report(listType, node, ids)), Over(ok)), Known(w.conns[id], listType);
            && Step(w, t) == World(Considering(w.server, slot, Reporting(listType, node, cfg, memb, ids), c, ok),
                                   w.conns[id := c])
            && M.DecodeOf(t.frame, RX_SIZE).Ok? && M.DecodeOf(t.frame, RX_SIZE).value.kind == M.NODE_LIST
  {
    hide M.DecodeOf, FrameOf, FrameStep, ListStep, Step, Considering, NodesOf, Reporting;
    var t := Frame(id, FrameOf(Report(listType, node, ids)), Over(ok));
    var c := w.conns[id];
    ReportDecodes(listType, node, ids);
    ListFrame(w.server, c.sess, listType, node, ids, ok);
    ListOutcome(w.server, c, listType, node, slot, cfg, memb, ids, ok);
    StepOf(w, t);
  }

  lemma ListFrame(s: State, c: Sess, listType: u8, node: u32, ids: Ids, ok: set<nat>)
    requires Shape(s) && c.stage == Active && listType <= 3 && 0 !in ids
    ensures FrameStep(s, c, FrameOf(Report(listType, node, ids)), Over(ok))
            == ListStep(s, c, MsgLaws.Arguments(Report(listType, node, ids)), ok)
  {
    hide M.DecodeOf, FrameOf, ListStep, NodesOf;
    ReportDecodes(listType, node, ids);
    DecodedNodesFit(FrameOf(Report(listType, node, ids)), RX_SIZE);
  }

  lemma ReportTurn(w: World, id: nat, listType: u8, node: u32, slot: SlotRef, cfg: Ids, memb: Ids, ids: Ids,
                   clean: bool)
    requires Shape(w.server) && w.server.algo == ALGO_FFSPLIT && slot >= 0 && id in w.conns && Reached(w, clean)
    requires w.server.ff.clients[slot] == Member(node, cfg, memb) && Listable(node, ids)
    requires w.conns[id] == Seated(node, slot, w.conns[id].sess.hasConfig, w.conns[id].sess.hasMemb)
    requires listType == INITIAL_CONFIG || listType == MEMBERSHIP
    ensures var c := Known(w.conns[id], listType);
            Reached(World(Considering(w.server, slot, Reporting(listType, node, cfg, memb, ids), c, ALL),
                          w.conns[id := c]), clean)
  {
    hide M.DecodeOf, FrameOf, Step, Considering, Reached, Allowed, Report;
    var t := Frame(id, FrameOf(Report(listType, node, ids)), Over(ALL));
    ReportStep(w, id, listType, node, slot, cfg, memb, ids, ALL);
    NoInitAllowed(w, t, clean);
    Reach(w, t, Step(w, t), clean);
  }

  // ---------- A client alone in the table ----------

  predicate Alone(t: seq<Client>, i: nat) {
    && i < |t| && t[i].used && t[i].hasRing && t[i].nodeId in t[i].memb && ReachesHalf(t[i])
    && forall j :: 0 <= j < |t| && j != i ==> !t[j].used
  }

  lemma AloneIsStable(t: seq<Client>, i: nat, quorate: Ids)
    requires Alone(t, i)
    ensures Stable(t) && Chosen(Cluster(t, quorate)) == t[i].memb
  {
    assert FFSplitLaws.Connected(t) == {t[i]} by { assert t[i] in FFSplitLaws.Connected(t); }
    assert StableSlot(t, i);
    LoneHalfWins(Cluster(t, quorate), i);
  }

  /** Alone in the table, a client that reaches half is pushed the ACK. */
  lemma AloneIsGranted(s: State, i: nat)
    requires Shape(s) && Alone(s.ff.clients, i)
    ensures var r := Recomputed(s, ALL);
            && MayHold(r.logs[i]) && r.ff.clients == s.ff.clients && r.algo == s.algo && r.phase == 2
            && r.sn[i] == s.sn[i] + 1
            && r.decisions == s.decisions + [s.ff.clients[i].memb] && !AnyIn(r, NACK_DUE, NACK_DUE)
            && forall j :: 0 <= j < MAX_CLIENTS && j != i ==> r.logs[j] == s.logs[j]
  {
    hide Recomputed, Stable, Chosen, ReachesHalf;
    AloneIsStable(s.ff.clients, i, s.ff.quorate);
    assert s.ff == Cluster(s.ff.clients, s.ff.quorate);
    var r := Recomputed(s, ALL);
    RecomputedElsewhere(s, ALL);
    assert Used(s, i);
    RecomputedAt(s, ALL, i);
    PushRecorded(s.logs[i], NextPush(s, i, VOTE_ACK));
    assert !Due(r, i, NACK_DUE) && forall j :: Used(r, j) ==> j == i;
    forall j | 0 <= j < MAX_CLIENTS && j != i
      ensures r.logs[j] == s.logs[j]
    {
      assert !Used(s, j);
      RoundLaws.UnusedKeepsLog(s, ALL, j);
    }
  }

  /** When everybody but `j` has gone, `j` is pushed the ACK. */
  lemma LastOneIsGranted(s: State, i: nat, j: nat)
    requires Shape(s) && s.algo == ALGO_FFSPLIT && i < MAX_CLIENTS && i != j
    requires Alone(WithoutSlot(s.ff.clients, i), j)
    ensures var r := Left(s, i, ALL);
            && r.ff.clients == WithoutSlot(s.ff.clients, i) && Used(r, j) && MayHold(r.logs[j])
            && r.decisions == s.decisions + [s.ff.clients[j].memb]
            && r.logs[i] == s.logs[i] && !AnyIn(r, NACK_DUE, NACK_DUE)
  {
    var v := Vacated(s, i);
    hide Recomputed, MayHold;
    AloneIsGranted(v, j);
    assert Used(Recomputed(v, ALL), j);
  }

  // ---------- Scenes: node 1 was granted [1, 4, 5], others come and report ----------

  const ALL_NODES: Ids := [1, 2, 3, 4, 5]
  const FIRST: Ids := [1, 4, 5]

  ghost predicate Scene(s: State, cs: seq<Client>) {
    && Shape(s) && 0 < |cs| <= MAX_CLIENTS && s.algo == ALGO_FFSPLIT && s.phase == 2
    && s.ff.clients == Padded(cs) && MayHold(s.logs[0]) && s.decisions == [FIRST]
    && s.sn[0] <= 1 && (|cs| > 1 ==> s.sn[1] == 0)
  }

  ghost predicate At(w: World, cs: seq<Client>, clean: bool) {
    Scene(w.server, cs) && Reached(w, clean)
  }

  lemma FirstEntered()
    ensures var s := Entered(Start(), 1);
            && SlotFor(Start().ff.clients, 1) == 0 && SlotOf(Start().ff.clients, 1) < 0
            && s.algo == ALGO_FFSPLIT && s.ff.clients == Padded([Member(1, [], [])]) && s.decisions == []
            && s.sn[0] == 0
  {
    assert SlotFor(Start().ff.clients, 1) == 0;
    assert Entered(Start(), 1).ff.clients == Padded([Member(1, [], [])]);
  }

  /** Connecting, INIT, a config list and a membership list: node 1 is granted its set. */
  lemma FirstGranted(clean: bool) returns (w: World)
    ensures At(w, [Member(1, ALL_NODES, FIRST)], clean) && w.conns == map[0 := Seated(1, 0, true, true)]
  {
    FirstEntered();
    hide Reached, Entered, Recomputed, SlotFor, SlotOf, MayHold;
    OriginReached(clean);
    GreetTurn(Origin(), 0, clean);
    var w1 := World(Start(), Origin().conns[0 := GREETED]);
    EnterTurn(w1, 0, 1, 0, clean);
    var w2 := World(Entered(Start(), 1), w1.conns[0 := Seated(1, 0, false, false)]);
    ReportTurn(w2, 0, INITIAL_CONFIG, 1, 0, [], [], ALL_NODES, clean);
    var s3 := WithClient(w2.server, 0, Member(1, ALL_NODES, []));
    var w3 := World(s3, w2.conns[0 := Seated(1, 0, true, false)]);
    ReportTurn(w3, 0, MEMBERSHIP, 1, 0, ALL_NODES, [], FIRST, clean);
    var q := WithClient(s3, 0, Member(1, ALL_NODES, FIRST));
    assert q.ff.clients == Padded([Member(1, ALL_NODES, FIRST)]);
    AloneIsGranted(q, 0);
    w := World(Recomputed(q, ALL), w3.conns[0 := Seated(1, 0, true, true)]);
  }

  lemma NewSlot(cs: seq<Client>, node: u32)
    requires |cs| < MAX_CLIENTS && forall k :: 0 <= k < |cs| ==> cs[k].used && cs[k].nodeId != node
    ensures SlotOf(Padded(cs), node) < 0 && SlotFor(Padded(cs), node) == |cs|
  {
    FirstFreeUnique(Padded(cs), |cs|);
  }

  lemma SceneJoins(s: State, cs: seq<Client>, node: u32)
    requires Scene(s, cs) && |cs| < MAX_CLIENTS && forall k :: 0 <= k < |cs| ==> cs[k].used && cs[k].nodeId != node
    ensures Scene(Entered(s, node), cs + [Member(node, [], [])])
  {
    NewSlot(cs, node);
    hide SlotOf, SlotFor, Padded, MayHold;
    assert Entered(s, node).ff.clients == Padded(cs + [Member(node, [], [])]);
  }

  /** A new node connects and joins. */
  lemma Arrive(w: World, cs: seq<Client>, id: nat, node: u32, clean: bool) returns (r: World)
    requires At(w, cs, clean) && id !in w.conns && node != 0
    requires |cs| < MAX_CLIENTS && forall k :: 0 <= k < |cs| ==> cs[k].used && cs[k].nodeId != node
    ensures At(r, cs + [Member(node, [], [])], clean)
    ensures r.conns == w.conns[id := Seated(node, |cs|, false, false)]
  {
    NewSlot(cs, node);
    SceneJoins(w.server, cs, node);
    hide Reached, Entered, SlotOf, SlotFor, Padded, MayHold;
    GreetTurn(w, id, clean);
    var w1 := World(w.server, w.conns[id := GREETED]);
    EnterTurn(w1, id, node, |cs|, clean);
    r := World(Entered(w.server, node), w1.conns[id := Seated(node, |cs|, false, false)]);
    assert r.conns == w.conns[id := Seated(node, |cs|, false, false)];
  }

  /** A connected node sends a list; if it has sent both, the table is not stable. */
  lemma Tell(w: World, cs: seq<Client>, id: nat, listType: u8, slot: nat, node: u32, ids: Ids, clean: bool)
    returns (r: World)
    requires At(w, cs, clean) && slot < |cs| && id in w.conns && Listable(node, ids)
    requires cs[slot] == Member(node, cs[slot].cfg, cs[slot].memb)
    requires w.conns[id] == Seated(node, slot, w.conns[id].sess.hasConfig, w.conns[id].sess.hasMemb)
    requires listType == INITIAL_CONFIG || listType == MEMBERSHIP
    requires var c := Known(w.conns[id], listType);
             c.sess.hasConfig && c.sess.hasMemb ==>
               !Stable(Padded(cs[slot := Reporting(listType, node, cs[slot].cfg, cs[slot].memb, ids)]))
    ensures At(r, cs[slot := Reporting(listType, node, cs[slot].cfg, cs[slot].memb, ids)], clean)
    ensures r.conns == w.conns[id := Known(w.conns[id], listType)]
  {
    hide Reached, Stable, MayHold, Listable;
    var cl := Reporting(listType, node, cs[slot].cfg, cs[slot].memb, ids);
    ReportTurn(w, id, listType, node, slot, cs[slot].cfg, cs[slot].memb, ids, clean);
    assert WithClient(w.server, slot, cl).ff.clients == Padded(cs[slot := cl]);
    var c := Known(w.conns[id], listType);
    r := World(Considering(w.server, slot, cl, c, ALL), w.conns[id := c]);
  }

  // ---------- A clean run with a holder ----------

  /** A clean run of an FFSplit cluster at whose end a client holds an ACK. */
  lemma CleanRunWithHolder()
    ensures exists turns: seq<Turn>, i: nat ::
              CleanRun(Origin(), turns) && Run(Origin(), turns).server.algo == ALGO_FFSPLIT
              && i < MAX_CLIENTS && Holder(Run(Origin(), turns).server, i)
  {
    var w := FirstGranted(true);
    hide Run, CleanRun, MayHold;
    var turns: seq<Turn> :| Course(Origin(), turns, true) && Run(Origin(), turns) == w;
    assert Holder(Run(Origin(), turns).server, 0);
  }

  // ---------- A disconnect grants a client without a config ----------

  lemma AloneAfter(s: State, cs: seq<Client>)
    requires Scene(s, cs) && |cs| == 2 && ReachesHalf(cs[1])
    requires cs[1].used && cs[1].hasRing && cs[1].nodeId in cs[1].memb
    ensures Shape(s) && s.algo == ALGO_FFSPLIT && s.ff.clients[1] == cs[1]
    ensures Alone(WithoutSlot(s.ff.clients, 0), 1)
  {
    hide MayHold, ReachesHalf;
  }

  /** Node 2 joins and reports a membership but no config; node 1 leaves, and the recompute
      of that grants node 2. */
  lemma LeaveGrantsWithoutConfig()
    ensures exists turns: seq<Turn>, i: nat ::
              CleanRun(Origin(), turns) && i < MAX_CLIENTS && Holder(Run(Origin(), turns).server, i)
              && Run(Origin(), turns).server.ff.clients[i].cfg == []
  {
    hide Run, CleanRun, MayHold, Left, Scene;
    var w1 := FirstGranted(true);
    var w2 := Arrive(w1, [Member(1, ALL_NODES, FIRST)], 1, 2, true);
    var cs := [Member(1, ALL_NODES, FIRST)] + [Member(2, [], [])];
    var w3 := Tell(w2, cs, 1, MEMBERSHIP, 1, 2, [2], true);
    var left := [cs[0], Member(2, [], [2])];
    assert cs[1 := Member(2, [], [2])] == left;
    AloneAfter(w3.server, left);
    LastOneIsGranted(w3.server, 0, 1);
    var w4 := World(Left(w3.server, 0, ALL), w3.conns - {0});
    Reach(w3, Close(0, ALL), w4, true);
    var turns: seq<Turn> :| Course(Origin(), turns, true) && Run(Origin(), turns) == w4;
    assert Holder(Run(Origin(), turns).server, 1);
  }

  // ---------- The older of two sessions of a node closes ----------

  const SECOND: Ids := [2, 3, 4]

  /** Node 1 opens a second session. */
  lemma Return(w: World, cs: seq<Client>, id: nat) returns (r: World)
    requires At(w, cs, false) && id !in w.conns && cs[0] == Member(1, ALL_NODES, FIRST)
    ensures At(r, cs, false) && r.conns == w.conns[id := Seated(1, 0, false, false)]
  {
    assert !Unconfirmed(w.server, 1);
    hide Reached, Entered, SlotOf, SlotFor, Padded, MayHold, Unconfirmed;
    GreetTurn(w, id, false);
    var w1 := World(w.server, w.conns[id := GREETED]);
    EnterTurn(w1, id, 1, 0, false);
    r := World(Entered(w.server, 1), w1.conns[id := Seated(1, 0, false, false)]);
    assert r.conns == w.conns[id := Seated(1, 0, false, false)];
  }

  lemma ConfigsDiffer(cs: seq<Client>, i: nat, j: nat)
    requires |cs| <= MAX_CLIENTS && i < |cs| && j < |cs| && i != j && cs[i].used && cs[j].used
    requires |cs[i].cfg| != |cs[j].cfg|
    ensures !Stable(Padded(cs))
  {
    assert Padded(cs)[i] == cs[i] && Padded(cs)[j] == cs[j] && !StableSlot(Padded(cs), i);
  }

  lemma BeforeClose() returns (w: World)
    ensures At(w, [Member(1, ALL_NODES, FIRST), Member(2, SECOND, SECOND)], false)
    ensures w.conns
            == map[0 := Seated(1, 0, true, true), 1 := Seated(1, 0, false, false), 2 := Seated(2, 1, true, true)]
  {
    hide At, Stable;
    var cs := [Member(1, ALL_NODES, FIRST)];
    var w1 := FirstGranted(false);
    var w2 := Return(w1, cs, 1);
    var w3 := Arrive(w2, cs, 2, 2, false);
    var w4 := Tell(w3, cs + [Member(2, [], [])], 2, INITIAL_CONFIG, 1, 2, SECOND, false);
    var cs4, cs5 := [cs[0], Member(2, SECOND, [])], [cs[0], Member(2, SECOND, SECOND)];
    assert (cs + [Member(2, [], [])])[1 := Member(2, SECOND, [])] == cs4;
    assert cs4[1 := Member(2, SECOND, SECOND)] == cs5;
    ConfigsDiffer(cs5, 0, 1);
    w := Tell(w4, cs4, 2, MEMBERSHIP, 1, 2, SECOND, false);
  }

  /** Two sessions of one node, no NACK anywhere: the older session closes, the node drops
      out of the table, and the recompute grants another partition although the live session
      may still hold its ACK. */
  lemma OlderCloseBreaksExclusivity()
    ensures exists before: seq<Turn>, t: Turn ::
              FairRun(Origin(), before)
              && var w := Run(Origin(), before);
                 w.server.algo == ALGO_FFSPLIT && w.server.phase != 1 && t.Close? && !SoleOwner(w, t.id)
                 && NacksGetThrough(w.server, Step(w, t).server) && !LiveExclusive(Step(w, t))
  {
    var w := BeforeClose();
    hide Left, MayHold, FairRun, Run, Padded;
    var before: seq<Turn> :| Course(Origin(), before, false) && Run(Origin(), before) == w;
    var s, t := w.server, Close(0, ALL);
    AloneAfter(s, [Member(1, ALL_NODES, FIRST), Member(2, SECOND, SECOND)]);
    LastOneIsGranted(s, 0, 1);
    var r := Step(w, t);
    assert r.conns == map[1 := w.conns[1], 2 := w.conns[2]];
    TwoSetsHeld(r);
    assert 1 in w.conns && !SoleOwner(w, 0);
  }

  lemma TwoSetsHeld(r: World)
    requires Shape(r.server) && r.server.decisions == [FIRST, SECOND]
    requires r.conns == map[1 := Seated(1, 0, false, false), 2 := Seated(2, 1, true, true)]
    requires MayHold(r.server.logs[0]) && MayHold(r.server.logs[1])
    ensures !LiveExclusive(r)
  {
    hide MayHold;
    assert LiveHolder(r, 1) && LiveHolder(r, 2);
    forall q: Ids | DecidedSet(r.server, q)
      ensures exists id :: LiveHolder(r, id) && r.conns[id].sess.node !in q
    {
      assert q == [] || q == FIRST || q == SECOND;
    }
  }

  // ---------- Lost NACKs ----------

  /** Node 2 has the majority [2, 3, 4] but did not report its config; node 1 is alone. */
  lemma BeforeLoss() returns (w: World)
    ensures At(w, [Member(1, ALL_NODES, [1]), Member(2, [], SECOND)], false)
    ensures w.conns == map[0 := Seated(1, 0, true, true), 1 := Seated(2, 1, false, true)]
  {
    hide At, Stable;
    var cs := [Member(1, ALL_NODES, FIRST)];
    var w1 := FirstGranted(false);
    var w2 := Arrive(w1, cs, 1, 2, false);
    var cs3, cs4 := [Member(1, ALL_NODES, [1]), Member(2, [], [])], [Member(1, ALL_NODES, [1]), Member(2, [], SECOND)];
    assert (cs + [Member(2, [], [])])[0 := Member(1, ALL_NODES, [1])] == cs3;
    assert cs3[1 := Member(2, [], SECOND)] == cs4;
    ConfigsDiffer(cs3, 0, 1);
    var w3 := Tell(w2, cs + [Member(2, [], [])], 0, MEMBERSHIP, 0, 1, [1], false);
    w := Tell(w3, cs3, 1, MEMBERSHIP, 1, 2, SECOND, false);
  }

  /** The transports of node 1 fail: its NACK is lost, the ACK of node 2 goes out. */
  lemma LossOf(s: State, cs: seq<Client>)
    requires Scene(s, cs) && cs == [Member(1, ALL_NODES, [1]), Member(2, ALL_NODES, SECOND)]
    ensures var r := Recomputed(s, {1});
            && r.decisions == [FIRST, SECOND] && r.phase != 1 && Due(r, 0, NACK_DUE)
            && r.ff.clients == s.ff.clients && MayHold(r.logs[0]) && MayHold(r.logs[1])
  {
    hide Recomputed, MayHold;
    var t, ok: set<nat> := s.ff.clients, {1};
    RecomputedElsewhere(s, ok);
    assert Used(s, 0) && Used(s, 1);
    RecomputedAt(s, ok, 0);
    RecomputedAt(s, ok, 1);
    PushRecorded(s.logs[1], NextPush(s, 1, VOTE_ACK));
    hide Stable;
    assert s.ff == Cluster(t, s.ff.quorate);
    LoneHalfWins(s.ff, 1);
  }

  lemma TwoSetsGranted(r: State, i: nat, q: Ids)
    requires Shape(r) && i < MAX_CLIENTS && r.decisions == [FIRST, q] && 1 !in q
    requires Holder(r, 0) && r.ff.clients[0].nodeId == 1
    requires Holder(r, i) && r.ff.clients[i].nodeId in {2, 3}
    ensures !Exclusive(r)
  {
    hide MayHold;
    forall p: Ids | DecidedSet(r, p)
      ensures !HoldersWithin(r, p)
    {
      assert p == [] || p == FIRST || p == q;
    }
  }

  /** A decision whose NACKs are all lost, although a refused client may hold an ACK, sends
      the ACKs at once: clients of two decided sets hold one. */
  lemma LostNacksBreakExclusivity()
    ensures exists before: seq<Turn>, t: Turn ::
              FairRun(Origin(), before)
              && var w := Run(Origin(), before);
                 Admissible(w, t) && Step(w, t).server.algo == ALGO_FFSPLIT
                 && !NacksGetThrough(w.server, Step(w, t).server) && !Exclusive(Step(w, t).server)
  {
    var w := BeforeLoss();
    hide Recomputed, MayHold, FairRun, Run, Step, M.DecodeOf, FrameOf;
    var before: seq<Turn> :| Course(Origin(), before, false) && Run(Origin(), before) == w;
    var t := Frame(1, FrameOf(Report(INITIAL_CONFIG, 2, ALL_NODES)), Over({1}));
    ReportStep(w, 1, INITIAL_CONFIG, 2, 1, [], SECOND, ALL_NODES, {1});
    var q := WithClient(w.server, 1, Member(2, ALL_NODES, SECOND));
    var cs := [Member(1, ALL_NODES, [1]), Member(2, ALL_NODES, SECOND)];
    assert q.ff.clients == Padded(cs);
    LossOf(q, cs);
    RecomputeSeats(q, {1});
    TwoSetsGranted(Recomputed(q, {1}), 1, SECOND);
    assert Admissible(w, t);
  }

  // ---------- A second session before the NACK is confirmed ----------

  const THIRD: Ids := [3, 4, 5]

  /** Node 3 has the majority [3, 4, 5] but did not report its config; node 2 reported no
      membership, node 1 is alone. */
  lemma BeforeHandover() returns (w: World)
    ensures At(w, [Member(1, ALL_NODES, [1]), Member(2, ALL_NODES, []), Member(3, [], THIRD)], false)
    ensures w.conns
            == map[0 := Seated(1, 0, true, true), 1 := Seated(2, 1, true, false), 2 := Seated(3, 2, false, true)]
  {
    hide At, Stable;
    var one, two, three := Member(1, ALL_NODES, FIRST), Member(2, [], []), Member(3, [], []);
    var w1 := FirstGranted(false);
    var w2 := Arrive(w1, [one], 1, 2, false);
    assert [one] + [two] == [one, two];
    var w3 := Arrive(w2, [one, two], 2, 3, false);
    assert [one, two] + [three] == [one, two, three];
    var alone := Member(1, ALL_NODES, [1]);
    assert [one, two, three][0 := alone] == [alone, two, three];
    ConfigsDiffer([alone, two, three], 0, 1);
    var w4 := Tell(w3, [one, two, three], 0, MEMBERSHIP, 0, 1, [1], false);
    var two' := Member(2, ALL_NODES, []);
    assert [alone, two, three][1 := two'] == [alone, two', three];
    var w5 := Tell(w4, [alone, two, three], 1, INITIAL_CONFIG, 1, 2, ALL_NODES, false);
    assert [alone, two', three][2 := Member(3, [], THIRD)] == [alone, two', Member(3, [], THIRD)];
    w := Tell(w5, [alone, two', three], 2, MEMBERSHIP, 2, 3, THIRD, false);
  }

  /** Nodes 1 and 2 owe a confirmation of their NACKs, node 3 waits for its ACK. */
  ghost predicate Handover(s: State) {
    && Shape(s) && s.algo == ALGO_FFSPLIT && s.phase == 1 && s.decisions == [FIRST, THIRD] && s.ff.quorate == THIRD
    && s.ff.clients == Padded([Member(1, ALL_NODES, [1]), Member(2, ALL_NODES, []), Member(3, ALL_NODES, THIRD)])
    && MayHold(s.logs[0]) && s.st[0] == NACK_PENDING && s.sn[0] <= 2
    && s.st[1] == NACK_PENDING && s.sn[1] == 1 && s.st[2] == ACK_DUE
  }

  lemma HandoverStable(t: seq<Client>)
    requires t == Padded([Member(1, ALL_NODES, [1]), Member(2, ALL_NODES, []), Member(3, ALL_NODES, THIRD)])
    ensures Stable(t) && SelfListing(FFSplitLaws.Connected(t))
  {
    assert Holds(t, 0, 1) && Holds(t, 1, 2) && Holds(t, 2, 3);
    forall i | 0 <= i < |t| && t[i].used
      ensures StableSlot(t, i)
    {
      assert i == 0 || i == 1 || i == 2;
    }
  }

  lemma HandoverChooses(c: Cluster)
    requires c.clients == Padded([Member(1, ALL_NODES, [1]), Member(2, ALL_NODES, []), Member(3, ALL_NODES, THIRD)])
    ensures Stable(c.clients) && Chosen(c) == THIRD
  {
    HandoverStable(c.clients);
    hide Stable;
    LoneHalfWins(c, 2);
  }

  lemma HandedOver(s: State)
    requires Scene(s, [Member(1, ALL_NODES, [1]), Member(2, ALL_NODES, []), Member(3, ALL_NODES, THIRD)])
    ensures Handover(Recomputed(s, ALL))
  {
    hide Recomputed, MayHold, Stable, Chosen;
    HandoverChooses(s.ff);
    RecomputedElsewhere(s, ALL);
    assert Used(s, 0) && Used(s, 1) && Used(s, 2);
    RecomputedAt(s, ALL, 0);
    RecomputedAt(s, ALL, 1);
    RecomputedAt(s, ALL, 2);
    PushRecorded(s.logs[0], NextPush(s, 0, VOTE_NACK));
  }

  lemma BeforeReturn() returns (w: World)
    ensures Reached(w, false) && Handover(w.server) && 1 in w.conns && w.conns[1] == Seated(2, 1, true, false)
    ensures 0 in w.conns && w.conns[0] == Seated(1, 0, true, true) && 3 in w.conns && w.conns[3] == GREETED
  {
    var w1 := BeforeHandover();
    hide Recomputed, MayHold, Handover, Reached;
    ReportTurn(w1, 2, INITIAL_CONFIG, 3, 2, [], THIRD, ALL_NODES, false);
    var q := WithClient(w1.server, 2, Member(3, ALL_NODES, THIRD));
    assert q.ff.clients == Padded([Member(1, ALL_NODES, [1]), Member(2, ALL_NODES, []), Member(3, ALL_NODES, THIRD)]);
    HandedOver(q);
    var w2 := World(Recomputed(q, ALL), w1.conns[2 := Seated(3, 2, true, true)]);
    GreetTurn(w2, 3, false);
    w := World(w2.server, w2.conns[3 := GREETED]);
  }

  lemma ConfirmStep(w: World, id: nat, node: u32, slot: nat, n: u32)
    requires Shape(w.server) && w.server.algo == ALGO_FFSPLIT && slot < MAX_CLIENTS && id in w.conns
    requires w.conns[id] == Seated(node, slot, w.conns[id].sess.hasConfig, w.conns[id].sess.hasMemb)
    ensures var t := Frame(id, FrameOf(M.VoteInfoReply(n)), Over(ALL));
            Step(w, t) == World(Answered(w.server, slot, n, ALL), w.conns) && Allowed(w, t, false)
  {
    ConfirmDecodes(n);
    hide M.DecodeOf, FrameOf, Answered;
    var t := Frame(id, FrameOf(M.VoteInfoReply(n)), Over(ALL));
    StepOf(w, t);
    NoInitAllowed(w, t, false);
    assert w.conns[id := w.conns[id]] == w.conns;
  }

  /** The second session of node 1 wipes its pending NACK, and node 2 confirms the last one. */
  lemma ReturnReleases(s: State)
    requires Handover(s)
    ensures SlotOf(s.ff.clients, 1) == 0 && SlotFor(s.ff.clients, 1) == 0 && Unconfirmed(s, 1)
    ensures Shape(Entered(s, 1)) && Entered(s, 1).algo == ALGO_FFSPLIT
    ensures Answered(Entered(s, 1), 1, 1, ALL).algo == ALGO_FFSPLIT && !Exclusive(Answered(Entered(s, 1), 1, 1, ALL))
  {
    hide Drained, MayHold;
    assert Holds(s.ff.clients, 0, 1);
    var j := Entered(s, 1);
    var m := Noted(j, 1, 1).(st := j.st[1 := NONE]);
    assert Matches(j, 1, 1);
    assert m.phase == 1 && !AnyIn(m, NACK_DUE, NACK_PENDING);
    assert Due(m, 2, ACK_DUE);
    DrainedAt(m, ACK_DUE, VOTE_ACK, ACK_PENDING, ALL, 2);
    DrainedAt(m, ACK_DUE, VOTE_ACK, ACK_PENDING, ALL, 0);
    DrainedElsewhere(m, ACK_DUE, VOTE_ACK, ACK_PENDING, ALL);
    var r := Answered(j, 1, 1, ALL);
    assert r == AcksReleased(m, ALL);
    PushRecorded(m.logs[2], NextPush(m, 2, VOTE_ACK));
    TwoSetsGranted(r, 2, THIRD);
  }

  /** With all transports working, a second session of a refused node wipes the pending NACK
      of its slot: the next confirmation of another client releases the ACKs over a node that
      may still hold one. */
  lemma DuplicateSessionBreaksExclusivity()
    ensures exists before: seq<Turn>, t: Turn, u: Turn ::
              FairRun(Origin(), before)
              && RoundLaws.Delivers(Transports(t)) && RoundLaws.Delivers(Transports(u))
              && var w := Run(Origin(), before);
                 !Admissible(w, t) && Admissible(Step(w, t), u)
                 && Step(Step(w, t), u).server.algo == ALGO_FFSPLIT && !Exclusive(Step(Step(w, t), u).server)
  {
    var w := BeforeReturn();
    ReturnReleases(w.server);
    hide Entered, MayHold, FairRun, Run, Step, FrameOf, Answered, Unconfirmed, Inits, InitNode;
    var before: seq<Turn> :| Course(Origin(), before, false) && Run(Origin(), before) == w;
    var t, u := Frame(3, FrameOf(Enter(1)), Over(ALL)), Frame(1, FrameOf(M.VoteInfoReply(1)), Over(ALL));
    EnterStep(w, 3, 1, 0);
    ConfirmStep(Step(w, t), 1, 2, 1, 1);
    assert RoundLaws.Delivers(Transports(u)) && !Admissible(w, t);
  }

  // ---------- An ACK still due goes out over disagreeing configs ----------

  function Four(): seq<Client> {
    [Member(1, ALL_NODES, [1]), Member(2, ALL_NODES, []), Member(3, ALL_NODES, THIRD), Member(4, [], [])]
  }

  /** Node 4 joins without a config, then node 1 confirms its NACK. */
  lemma BeforeLastConfirmation() returns (w: World)
    ensures Reached(w, false) && Shape(w.server) && w.server.algo == ALGO_FFSPLIT && w.server.phase == 1
    ensures w.server.ff.clients == Padded(Four())
    ensures w.server.st[0] == NONE && w.server.st[1] == NACK_PENDING && w.server.sn[1] == 1
    ensures w.server.st[2] == ACK_DUE && w.server.st[3] == NONE
    ensures 1 in w.conns && w.conns[1] == Seated(2, 1, true, false)
  {
    var w1 := BeforeReturn();
    var cs := [Member(1, ALL_NODES, [1]), Member(2, ALL_NODES, []), Member(3, ALL_NODES, THIRD)];
    NewSlot(cs, 4);
    FourthJoins(w1.server);
    hide Handover, Reached, Entered, Answered, MayHold, Padded, SlotOf, SlotFor, Unconfirmed;
    assert !Unconfirmed(w1.server, 4) by { UnknownIsConfirmed(w1.server, 4); }
    EnterTurn(w1, 3, 4, 3, false);
    var w2 := World(Entered(w1.server, 4), w1.conns[3 := Seated(4, 3, false, false)]);
    var n := w2.server.sn[0];
    ConfirmStep(w2, 0, 1, 0, n);
    FirstConfirms(w2.server);
    w := World(Answered(w2.server, 0, n, ALL), w2.conns);
    Reach(w2, Frame(0, FrameOf(M.VoteInfoReply(n)), Over(ALL)), w, false);
  }

  lemma UnknownIsConfirmed(s: State, node: u32)
    requires Shape(s) && SlotOf(s.ff.clients, node) < 0
    ensures !Unconfirmed(s, node)
  {}

  predicate FourthWaits(s: State) {
    && Shape(s) && s.algo == ALGO_FFSPLIT && s.phase == 1
    && s.ff.clients == Padded(Four())
    && s.st[0] == NACK_PENDING && s.sn[0] <= 2 && s.st[1] == NACK_PENDING && s.sn[1] == 1
    && s.st[2] == ACK_DUE && s.st[3] == NONE
  }

  lemma FourthJoins(s: State)
    requires Handover(s) && SlotOf(s.ff.clients, 4) < 0 && SlotFor(s.ff.clients, 4) == 3
    ensures FourthWaits(Entered(s, 4))
  {
    hide MayHold, SlotOf, SlotFor;
    var r := Entered(s, 4);
    assert r.ff.clients[3] == Member(4, [], []);
    assert r.ff.clients == Padded(Four());
  }

  lemma FirstConfirms(s: State)
    requires FourthWaits(s)
    ensures var r := Answered(s, 0, s.sn[0], ALL);
            r == Noted(s, 0, s.sn[0]).(st := s.st[0 := NONE])
  {
    hide Drained;
    var m := Noted(s, 0, s.sn[0]).(st := s.st[0 := NONE]);
    assert Due(m, 1, NACK_PENDING);
  }

  /** The last confirmation releases the ACK of the decision before, although a newcomer has no
      config yet and no decision is possible now. */
  lemma LateAckOverSplitConfigs()
    ensures exists before: seq<Turn>, t: Turn ::
              FairRun(Origin(), before) && RoundLaws.Delivers(Transports(t))
              && var w := Run(Origin(), before);
                 Admissible(w, t) && GrantLaws.ConfigsSplit(Step(w, t).server.ff.clients)
                 && exists i, n :: 0 <= i < MAX_CLIENTS && |w.server.logs[i]| <= n < |Step(w, t).server.logs[i]|
                                   && Step(w, t).server.logs[i][n].Pushed?
                                   && Step(w, t).server.logs[i][n].vote == VOTE_ACK
  {
    var w := BeforeLastConfirmation();
    LastReleases(w.server);
    hide FairRun, Run, Step, FrameOf, Answered, Padded;
    var before: seq<Turn> :| Course(Origin(), before, false) && Run(Origin(), before) == w;
    var t := Frame(1, FrameOf(M.VoteInfoReply(1)), Over(ALL));
    ConfirmStep(w, 1, 2, 1, 1);
    var r := Step(w, t).server;
    assert r.logs[2][|w.server.logs[2]|].Pushed?;
    assert Admissible(w, t);
  }

  lemma LastReleases(s: State)
    requires Shape(s) && s.algo == ALGO_FFSPLIT && s.phase == 1
    requires s.ff.clients == Padded(Four())
    requires s.st[0] == NONE && s.st[1] == NACK_PENDING && s.sn[1] == 1 && s.st[2] == ACK_DUE && s.st[3] == NONE
    ensures var r := Answered(s, 1, 1, ALL);
            && GrantLaws.ConfigsSplit(r.ff.clients) && |r.logs[2]| == |s.logs[2]| + 1
            && r.logs[2][|s.logs[2]|].Pushed? && r.logs[2][|s.logs[2]|].vote == VOTE_ACK
  {
    hide Drained;
    var m := Noted(s, 1, 1).(st := s.st[1 := NONE]);
    assert Matches(s, 1, 1);
    assert !AnyIn(m, NACK_DUE, NACK_PENDING);
    assert Due(m, 2, ACK_DUE);
    DrainedAt(m, ACK_DUE, VOTE_ACK, ACK_PENDING, ALL, 2);
    DrainedElsewhere(m, ACK_DUE, VOTE_ACK, ACK_PENDING, ALL);
    var t := s.ff.clients;
    assert 1 in t[0].cfg && 1 !in t[3].cfg;
  }
}
