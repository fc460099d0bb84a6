/** What clients are told, by replies and by pushes: under LMS every vote told is a decision
    on the current table, and all grants go to one ring; pushes carry the ring of their
    client; and clients that disagree on the config block every new decision. */
module GrantLaws {
  import opened Defs
  import opened Wire
  import opened FFSplit
  import opened FFSplitLaws
  import opened Push
  import opened PushLaws
  import opened Turns
  import opened RunLaws
  import FailureLaws
  import Lms
  import LmsLaws
  import RoundLaws
  import M = Msg

  // ---------- What a refresh tells ----------

  /** Some decision for slot `i` on the table `t`, whatever was saved, is `v`. */
  ghost predicate DecidedFor(t: seq<Client>, i: nat, v: u8) {
    i < |t| && exists last: seq<u8> :: |last| == |t| && Lms.Vote(t, i, last) == v
  }

  /** What one pass over the waiters does to slot `i`: a decision uses up a number, and nothing
      newly decided is kept from a client whose transport works. */
  ghost predicate RefreshedAt(s: State, exclude: int, from: nat, ok: set<nat>, i: nat, r: State)
    requires Shape(s) && Shape(r) && i < MAX_CLIENTS
  {
    if r.logs[i] == s.logs[i] then
      if r.last[i] != s.last[i] && (r.last[i] == VOTE_ACK || r.last[i] == VOTE_NACK)
      then i !in ok && r.sn[i] == s.sn[i] + 1
      else r.sn[i] == s.sn[i]
    else
      && i != exclude && from <= i && Used(s, i) && r.sn[i] == s.sn[i] + 1
      && (r.last[i] == VOTE_ACK || r.last[i] == VOTE_NACK)
      && r.logs[i] == s.logs[i] + [NextPush(s, i, r.last[i])] && DecidedFor(s.ff.clients, i, r.last[i])
  }

  lemma SavedWhenDecided(t: seq<Client>, i: nat, last: seq<u8>)
    requires i < |t| == |last| && last[i] != Lms.LMS_NEW
    ensures var v := Lms.Vote(t, i, last);
            v != VOTE_WAIT_FOR_REPLY ==> Lms.Saved(t, i, last) == last[i := v]
  {
    hide Lms.RingsMatch, Lms.FacesAck;
  }

  /** Slot `i` after its own decision in a refresh. */
  lemma RerunTells(s: State, exclude: int, i: nat, ok: set<nat>)
    requires Shape(s) && i < MAX_CLIENTS && Lms.Waits(s.ff.clients, exclude, s.last, i)
    ensures RefreshedAt(s, exclude, i, ok, i, Rerun(s, i, ok))
  {
    var v := Lms.Vote(s.ff.clients, i, s.last);
    assert DecidedFor(s.ff.clients, i, v);
    SavedWhenDecided(s.ff.clients, i, s.last);
    hide Lms.Vote, Lms.Saved, DecidedFor;
  }

  lemma RerunElsewhere(s: State, i: nat, ok: set<nat>)
    requires Shape(s) && i < MAX_CLIENTS
    ensures var r := Rerun(s, i, ok);
            r.ff == s.ff && forall k :: 0 <= k < MAX_CLIENTS && k != i ==>
                              r.logs[k] == s.logs[k] && r.sn[k] == s.sn[k] && r.last[k] == s.last[k]
  {
    hide Lms.Vote;
  }

  lemma {:induction false} RefreshTells(s: State, exclude: int, from: nat, ok: set<nat>, i: nat)
    requires Shape(s) && from <= MAX_CLIENTS && i < MAX_CLIENTS
    ensures var r := RefreshedFrom(s, exclude, from, ok);
            && r.ff == s.ff && RefreshedAt(s, exclude, from, ok, i, r)
            && (i == exclude || i < from ==>
                  r.last[i] == s.last[i] && r.logs[i] == s.logs[i] && r.sn[i] == s.sn[i])
    decreases MAX_CLIENTS - from
  {
    hide Rerun, Lms.Waits, DecidedFor;
    if from < MAX_CLIENTS {
      var next := s;
      if Lms.Waits(s.ff.clients, exclude, s.last, from) {
        next := Rerun(s, from, ok);
        RerunElsewhere(s, from, ok);
        RerunTells(s, exclude, from, ok);
        assert from != exclude by { WaitersAreOthers(s, exclude, from); }
      }
      RefreshTells(next, exclude, from + 1, ok, i);
    }
  }

  lemma WaitersAreOthers(s: State, exclude: int, i: nat)
    requires Shape(s) && i < MAX_CLIENTS && Lms.Waits(s.ff.clients, exclude, s.last, i)
    ensures i != exclude
  {}

  // ---------- What an LMS turn tells ----------

  /** The vote `v` in a reply is the decision for slot `i` on the table of the turn, and it is
      what was saved, but for a newcomer's refusal and for a tie nobody can break. */
  ghost predicate Answers(s: State, i: nat, v: u8, r: State)
    requires Shape(s) && Shape(r) && i < MAX_CLIENTS
  {
    && v == Lms.Vote(r.ff.clients, i, s.last)
    && (r.last[i] == v
        || (r.last[i] == s.last[i]
            && ((s.last[i] == Lms.LMS_NEW && v == VOTE_NACK)
                || (v == VOTE_WAIT_FOR_REPLY && r.ff.clients[i].tbMode != TB_LOWEST
                    && r.ff.clients[i].tbMode != TB_HIGHEST && r.ff.clients[i].tbMode != TB_NODE_ID))))
  }

  lemma UnsavedVote(t: seq<Client>, i: nat, last: seq<u8>)
    requires i < |t| == |last|
    ensures var v := Lms.Vote(t, i, last);
            if Lms.Saved(t, i, last) == last[i := v] then true
            else Lms.Saved(t, i, last) == last
                 && ((last[i] == Lms.LMS_NEW && v == VOTE_NACK)
                     || (v == VOTE_WAIT_FOR_REPLY && t[i].tbMode != TB_LOWEST
                         && t[i].tbMode != TB_HIGHEST && t[i].tbMode != TB_NODE_ID))
  {
    hide Lms.RingsMatch, Lms.FacesAck;
  }

  lemma DecisionAnswers(s: State, q: State, i: nat, ok: set<nat>)
    requires Shape(s) && Shape(q) && i < MAX_CLIENTS && q.last == s.last
    ensures var d := LmsDecided(q, i);
            && Shape(d.0) && Answers(s, i, d.1, d.0) && Answers(s, i, d.1, Refreshed(d.0, i, ok))
            && d.0.ff == q.ff && Refreshed(d.0, i, ok).ff == q.ff
  {
    UnsavedVote(q.ff.clients, i, q.last);
    hide Lms.Vote, Lms.Saved;
    var d := LmsDecided(q, i);
    RefreshTells(d.0, i, 0, ok, i);
  }

  /** The vote a reply carries; node list replies for configs carry none. */
  function VoteTold(r: Reply): Option<u8> {
    if r.Send? && r.request.AskForVoteReply? then Some(r.request.vote)
    else if r.Send? && r.request.NodeListReply?
            && (r.request.listType == QUORUM || r.request.listType == MEMBERSHIP) then Some(r.request.vote)
    else None
  }

  /** Every vote an LMS reply carries is the decision for the caller on the table as the
      request left it, and is saved. */
  lemma LmsReplyAnswers(s: State, c: Sess, frame: Bytes, env: Env)
    requires Shape(s) && s.algo == ALGO_LMS
    ensures var o := FrameStep(s, c, frame, env);
            VoteTold(o.reply).Some? ==>
              Shape(o.server) && c.slot >= 0 && Answers(s, c.slot, VoteTold(o.reply).value, o.server)
  {
    hide M.DecodeOf, Refreshed, Joined, LmsDecided, Answers, InitError;
    if M.DecodeOf(frame, RX_SIZE).Ok? && c.slot >= 0 {
      DecodedNodesFit(frame, RX_SIZE);
      var m := M.DecodeOf(frame, RX_SIZE).value;
      var stored := WithClient(s, c.slot, MembershipStored(s.ff.clients[c.slot], m));
      DecisionAnswers(s, s, c.slot, env.ok);
      DecisionAnswers(s, stored, c.slot, env.ok);
    }
  }

  /** The traffic of slot `i` is unchanged or starts afresh, or one vote was pushed: a decision
      on the table of the turn, saved, with the ring and the number of the slot. Unless `i` is
      the caller, nothing newly decided is kept from it. */
  ghost predicate LmsPushed(s: State, r: State, ok: set<nat>, caller: int, i: nat)
    requires Shape(s) && Shape(r) && i < MAX_CLIENTS
  {
    (r.logs[i] == s.logs[i]
     && (i != caller && i in ok && (r.last[i] == VOTE_ACK || r.last[i] == VOTE_NACK) ==> r.last[i] == s.last[i]))
    || r.logs[i] == []
    || (&& (r.last[i] == VOTE_ACK || r.last[i] == VOTE_NACK) && DecidedFor(r.ff.clients, i, r.last[i])
        && r.logs[i] == s.logs[i] + [Pushed(r.last[i], r.sn[i], r.ff.clients[i].ringNode, r.ff.clients[i].ringSeq)])
  }

  lemma RefreshPushes(s: State, d: State, exclude: int, ok: set<nat>, caller: int, i: nat)
    requires Shape(s) && Shape(d) && d.algo == ALGO_LMS && d.logs == s.logs && i < MAX_CLIENTS
    requires i != caller ==> d.last[i] == s.last[i]
    ensures LmsPushed(s, Refreshed(d, exclude, ok), ok, caller, i) && LmsPushed(s, d, ok, caller, i)
  {
    hide DecidedFor, RefreshedFrom;
    RefreshTells(d, exclude, 0, ok, i);
  }

  lemma LmsFramePushes(s: State, c: Sess, frame: Bytes, env: Env, i: nat)
    requires Shape(s) && s.algo == ALGO_LMS && i < MAX_CLIENTS && Shape(FrameStep(s, c, frame, env).server)
    ensures LmsPushed(s, FrameStep(s, c, frame, env).server, env.ok, c.slot, i)
  {
    hide M.DecodeOf, Refreshed, LmsDecided, LmsPushed, Joined;
    SameTraffic(s, s, env.ok, c.slot, i);
    if M.DecodeOf(frame, RX_SIZE).Ok? {
      DecodedNodesFit(frame, RX_SIZE);
      var m := M.DecodeOf(frame, RX_SIZE).value;
      if c.slot >= 0 {
        var mr := WithClient(s, c.slot, MembershipStored(s.ff.clients[c.slot], m));
        LmsDecisionPushes(s, s, c.slot, env.ok, i);
        LmsDecisionPushes(s, mr, c.slot, env.ok, i);
        SameTraffic(s, OptionStep(s, c, m).server, env.ok, c.slot, i);
      }
      if c.stage == PreinitDone && m.kind == M.INIT && InitError(s.algo, m) == E_NONE {
        JoinTraffic(s, m.nodeId.value, m.tie.value.mode, m.tie.value.node, m.algorithm.value, env.ok, c.slot, i);
      }
    }
  }

  lemma SameTraffic(s: State, r: State, ok: set<nat>, caller: int, i: nat)
    requires Shape(s) && Shape(r) && i < MAX_CLIENTS && r.logs == s.logs && r.last == s.last
    ensures LmsPushed(s, r, ok, caller, i)
  {}

  lemma JoinTraffic(s: State, id: u32, tbMode: u8, tbNode: u32, algo: u16, ok: set<nat>, caller: int, i: nat)
    requires Shape(s) && i < MAX_CLIENTS
    ensures LmsPushed(s, Joined(s, id, tbMode, tbNode, algo), ok, caller, i)
  {}

  lemma LmsDecisionPushes(s: State, q: State, slot: nat, ok: set<nat>, i: nat)
    requires Shape(s) && Shape(q) && q.algo == ALGO_LMS && q.logs == s.logs && q.last == s.last
    requires slot < MAX_CLIENTS && i < MAX_CLIENTS
    ensures var d := LmsDecided(q, slot).0;
            Shape(d) && LmsPushed(s, d, ok, slot, i) && LmsPushed(s, Refreshed(d, slot, ok), ok, slot, i)
  {
    hide Lms.Vote, LmsPushed;
    RefreshPushes(s, LmsDecided(q, slot).0, slot, ok, slot, i);
  }

  lemma LmsLeavePushes(s: State, slot: nat, ok: set<nat>, i: nat)
    requires Shape(s) && s.algo == ALGO_LMS && slot < MAX_CLIENTS && i < MAX_CLIENTS
    ensures LmsPushed(s, Left(s, slot, ok), ok, slot, i)
  {
    hide Refreshed;
    RefreshPushes(s, Vacated(s, slot), -1, ok, slot, i);
  }

  /** Every vote an LMS turn pushes is a saved decision on the table the turn leaves, and every
      vote it saves for anyone but the caller is pushed to a transport that takes it. */
  lemma LmsTurnPushes(w: World, t: Turn, i: nat)
    requires Shape(w.server) && w.server.algo == ALGO_LMS && i < MAX_CLIENTS
    ensures LmsPushed(w.server, Step(w, t).server, Transports(t), ConnOf(w, t.id).sess.slot, i)
  {
    hide FrameStep, Left, LmsPushed;
    var c := ConnOf(w, t.id);
    SameTraffic(w.server, w.server, Transports(t), c.sess.slot, i);
    if t.Close? {
      if c.sess.slot >= 0 { LmsLeavePushes(w.server, c.sess.slot, t.ok, i); }
    } else if !c.closing {
      StepShape(w.server, c.sess, t.frame, t.env);
      LmsFramePushes(w.server, c.sess, t.frame, t.env, i);
    }
  }

  // ---------- All LMS grants go to one ring ----------

  /** In turn `t` the client of slot `i` is told `v`, by the reply or by a push. */
  ghost predicate Told(w: World, t: Turn, i: nat, v: u8)
    requires Shape(w.server) && i < MAX_CLIENTS
  {
    || (t.Frame? && !ConnOf(w, t.id).closing && ConnOf(w, t.id).sess.slot == i
        && VoteTold(FrameStep(w.server, ConnOf(w, t.id).sess, t.frame, t.env).reply) == Some(v))
    || (exists n :: |w.server.logs[i]| <= n < |Step(w, t).server.logs[i]|
                    && Step(w, t).server.logs[i][n].Pushed? && Step(w, t).server.logs[i][n].vote == v)
  }

  lemma ToldIsDecided(w: World, t: Turn, i: nat, v: u8)
    requires Shape(w.server) && w.server.algo == ALGO_LMS && i < MAX_CLIENTS && Told(w, t, i, v)
    ensures DecidedFor(Step(w, t).server.ff.clients, i, v)
  {
    hide FrameStep, LeaveStep, DecidedFor;
    LmsTurnPushes(w, t, i);
    var s, c, r := w.server, ConnOf(w, t.id), Step(w, t).server;
    if t.Frame? && !c.closing && c.sess.slot == i && VoteTold(FrameStep(s, c.sess, t.frame, t.env).reply) == Some(v) {
      LmsReplyAnswers(s, c.sess, t.frame, t.env);
      StepShape(s, c.sess, t.frame, t.env);
      AnswerIsDecided(s, i, v, r);
    }
  }

  lemma AnswerIsDecided(s: State, i: nat, v: u8, r: State)
    requires Shape(s) && Shape(r) && i < MAX_CLIENTS && Answers(s, i, v, r)
    ensures DecidedFor(r.ff.clients, i, v)
  {}

  /** Whenever two LMS turns leave the same table, whatever was saved before them, the clients
      they grant -- in a reply or by a push -- are on one ring. */
  lemma GrantsGoToOneRing(w: World, t: Turn, i: nat, w': World, t': Turn, j: nat)
    requires Shape(w.server) && w.server.algo == ALGO_LMS && i < MAX_CLIENTS && Told(w, t, i, VOTE_ACK)
    requires Shape(w'.server) && w'.server.algo == ALGO_LMS && j < MAX_CLIENTS && Told(w', t', j, VOTE_ACK)
    requires Step(w', t').server.ff.clients == Step(w, t).server.ff.clients
    requires var table := Step(w, t).server.ff.clients;
             && DistinctNodes(table)
             && table[i].used && table[i].ringSeq != 0 && table[j].used && table[j].ringSeq != 0
             && table[i].tbMode == table[j].tbMode && table[i].tbNode == table[j].tbNode
    ensures var table := Step(w, t).server.ff.clients;
            table[i].ringNode == table[j].ringNode && table[i].ringSeq == table[j].ringSeq
  {
    hide Step, Told, Lms.Vote;
    ToldIsDecided(w, t, i, VOTE_ACK);
    ToldIsDecided(w', t', j, VOTE_ACK);
    var table := Step(w, t).server.ff.clients;
    var last: seq<u8> :| |last| == |table| && Lms.Vote(table, i, last) == VOTE_ACK;
    var last': seq<u8> :| |last'| == |table| && Lms.Vote(table, j, last') == VOTE_ACK;
    LmsLaws.GrantsShareRing(table, i, j, last, last');
  }

  lemma SeatsAfter(before: seq<Turn>, t: Turn)
    requires FairRun(Origin(), before) && Fair(Run(Origin(), before), t)
    ensures DistinctNodes(Step(Run(Origin(), before), t).server.ff.clients)
  {
    hide Step, Fair, Inv, Run, FairRun;
    OriginKept();
    RunKeeps(Origin(), before);
    StepKeeps(Run(Origin(), before), t);
  }

  lemma OriginKept()
    ensures WorldInv(Origin())
  {}

  /** The same over fair runs, and so at any two points of one: distinct nodes are given. */
  lemma RunGrantsOneRing(before: seq<Turn>, t: Turn, i: nat, before': seq<Turn>, t': Turn, j: nat)
    requires FairRun(Origin(), before) && Fair(Run(Origin(), before), t) && FairRun(Origin(), before')
    requires var w, w' := Run(Origin(), before), Run(Origin(), before');
             && w.server.algo == ALGO_LMS && i < MAX_CLIENTS && Told(w, t, i, VOTE_ACK)
             && w'.server.algo == ALGO_LMS && j < MAX_CLIENTS && Told(w', t', j, VOTE_ACK)
             && Step(w', t').server.ff.clients == Step(w, t).server.ff.clients
             && var table := Step(w, t).server.ff.clients;
                && table[i].used && table[i].ringSeq != 0 && table[j].used && table[j].ringSeq != 0
                && table[i].tbMode == table[j].tbMode && table[i].tbNode == table[j].tbNode
    ensures var table := Step(Run(Origin(), before), t).server.ff.clients;
            table[i].ringNode == table[j].ringNode && table[i].ringSeq == table[j].ringSeq
  {
    hide Step, Told, Fair, FairRun, Run, DistinctNodes, FrameStep;
    SeatsAfter(before, t);
    GrantsGoToOneRing(Run(Origin(), before), t, i, Run(Origin(), before'), t', j);
  }

  // ---------- Pushes carry the ring and the number of their client ----------

  /** Every vote newly recorded for slot `i` carries the ring the client has in the table and
      the slot's current number. */
  predicate Current(s: State, r: State, i: nat)
    requires Shape(s) && Shape(r) && i < MAX_CLIENTS
  {
    forall n :: |s.logs[i]| <= n < |r.logs[i]| && r.logs[i][n].Pushed? ==>
      r.logs[i][n].n == r.sn[i]
      && r.logs[i][n].ringNode == r.ff.clients[i].ringNode && r.logs[i][n].ringSeq == r.ff.clients[i].ringSeq
  }

  lemma UnstableCurrent(s: State, ok: set<nat>, i: nat)
    requires Shape(s) && i < MAX_CLIENTS && !Stable(s.ff.clients)
    ensures Current(s, Recomputed(s, ok), i)
  {}

  lemma RecomputeCurrent(s: State, ok: set<nat>, i: nat)
    requires Shape(s) && i < MAX_CLIENTS
    ensures Current(s, Recomputed(s, ok), i)
  {
    hide Recomputed, Stable, Chosen;
    if Stable(s.ff.clients) {
      RecomputedElsewhere(s, ok);
      if Used(s, i) { RecomputedAt(s, ok, i); } else { RoundLaws.UnusedKeepsLog(s, ok, i); }
    } else {
      UnstableCurrent(s, ok, i);
    }
  }

  lemma AnswerCurrent(s: State, k: nat, n: nat, ok: set<nat>, i: nat)
    requires Shape(s) && k < MAX_CLIENTS && i < MAX_CLIENTS
    ensures Current(s, Answered(s, k, n, ok), i)
  {
    hide Drained, AnyIn;
    var m := Noted(s, k, n).(st := s.st[k := NONE]);
    DrainedAt(m, ACK_DUE, VOTE_ACK, ACK_PENDING, ok, i);
    DrainedElsewhere(m, ACK_DUE, VOTE_ACK, ACK_PENDING, ok);
  }

  lemma LmsCurrent(s: State, r: State, ok: set<nat>, caller: int, i: nat)
    requires Shape(s) && Shape(r) && i < MAX_CLIENTS && LmsPushed(s, r, ok, caller, i)
    ensures Current(s, r, i)
  {
    hide DecidedFor;
  }

  lemma JoinCurrent(s: State, id: u32, tbMode: u8, tbNode: u32, algo: u16, i: nat)
    requires Shape(s) && i < MAX_CLIENTS
    ensures Current(s, Joined(s, id, tbMode, tbNode, algo), i)
  {}

  lemma LeaveCurrent(s: State, slot: nat, ok: set<nat>, i: nat)
    requires Shape(s) && slot < MAX_CLIENTS && i < MAX_CLIENTS && s.algo != ALGO_LMS
    ensures Current(s, Left(s, slot, ok), i)
  {
    hide Recomputed;
    RecomputeCurrent(Vacated(s, slot), ok, i);
  }

  /** In any turn, from any state, under either algorithm: a pushed vote carries the current
      ring of its client and the slot's number. */
  lemma PushesAreCurrent(w: World, t: Turn, i: nat)
    requires Shape(w.server) && i < MAX_CLIENTS
    ensures Current(w.server, Step(w, t).server, i)
  {
    hide FrameStep, Left, Recomputed, Answered, Joined, LmsPushed;
    var s, c, r := w.server, ConnOf(w, t.id), Step(w, t).server;
    if s.algo == ALGO_LMS {
      LmsTurnPushes(w, t, i);
      LmsCurrent(s, r, Transports(t), c.sess.slot, i);
    } else if t.Close? {
      if c.sess.slot >= 0 { LeaveCurrent(s, c.sess.slot, t.ok, i); }
    } else if !c.closing {
      var q, e := FrameEffect(s, c.sess, t.frame, t.env);
      if e.Decides? {
        RecomputeCurrent(q, t.env.ok, i);
      } else if e.Answers? {
        AnswerCurrent(q, e.slot, e.n, t.env.ok, i);
      } else if e.Joins? {
        JoinCurrent(q, e.id, e.tbMode, e.tbNode, e.algo, i);
      }
    }
  }

  // ---------- Disagreeing configs ----------

  /** Two connected clients list different configs. */
  predicate ConfigsSplit(t: seq<Client>) {
    exists i, j :: 0 <= i < |t| && 0 <= j < |t| && t[i].used && t[j].used
                   && exists x :: x in t[i].cfg && x !in t[j].cfg
  }

  lemma SplitIsUnstable(t: seq<Client>)
    requires ConfigsSplit(t)
    ensures !Stable(t)
  {
    var i, j :| 0 <= i < |t| && 0 <= j < |t| && t[i].used && t[j].used && exists x :: x in t[i].cfg && x !in t[j].cfg;
    assert !SameIds(t[i].cfg, t[j].cfg);
    assert !StableSlot(t, i);
  }

  predicate IsVoteReply(t: Turn) {
    t.Frame? && M.DecodeOf(t.frame, RX_SIZE).Ok? && M.DecodeOf(t.frame, RX_SIZE).value.kind == M.VOTE_INFO_REPLY
  }

  /** Nothing is decided, and a vote is pushed to slot `i` only if it is the ACK still due
      from the last decision. */
  predicate NothingNew(s: State, r: State, isReply: bool, i: nat)
    requires Shape(s) && Shape(r) && i < MAX_CLIENTS
  {
    && r.decisions == s.decisions
    && forall n :: |s.logs[i]| <= n < |r.logs[i]| && r.logs[i][n].Pushed? ==>
         isReply && s.phase == 1 && s.st[i] == ACK_DUE && r.logs[i][n].vote == VOTE_ACK
  }

  lemma AnswerNothingNew(s: State, k: nat, n: nat, ok: set<nat>, i: nat)
    requires Shape(s) && k < MAX_CLIENTS && i < MAX_CLIENTS
    ensures NothingNew(s, Answered(s, k, n, ok), true, i)
  {
    hide Drained, AnyIn;
    var m := Noted(s, k, n).(st := s.st[k := NONE]);
    DrainedAt(m, ACK_DUE, VOTE_ACK, ACK_PENDING, ok, i);
    DrainedElsewhere(m, ACK_DUE, VOTE_ACK, ACK_PENDING, ok);
  }

  /** A turn after which two connected clients list different configs decides nothing, and
      pushes nothing -- unless it is the confirmation that releases ACKs of the decision
      before. */
  lemma SplitConfigsDecideNothing(w: World, t: Turn, i: nat)
    requires Shape(w.server) && w.server.algo != ALGO_LMS && i < MAX_CLIENTS
    requires ConfigsSplit(Step(w, t).server.ff.clients)
    ensures NothingNew(w.server, Step(w, t).server, IsVoteReply(t), i)
  {
    hide FrameStep, Left, Recomputed, Answered, Joined, ConfigsSplit, M.DecodeOf;
    var s, c, r := w.server, ConnOf(w, t.id), Step(w, t).server;
    if t.Close? {
      if c.sess.slot >= 0 {
        LeftSeats(s, c.sess.slot, t.ok);
        SplitIsUnstable(Vacated(s, c.sess.slot).ff.clients);
        LeaveNothingNew(s, c.sess.slot, t.ok, i);
      }
    } else if !c.closing {
      var q, e := FrameEffect(s, c.sess, t.frame, t.env);
      if e.Decides? {
        RecomputeSeats(q, t.env.ok);
        SplitIsUnstable(q.ff.clients);
        UnstableNothingNew(q, t.env.ok, i);
      } else if e.Answers? {
        AnswerNothingNew(q, e.slot, e.n, t.env.ok, i);
      } else if e.Joins? {
        JoinNothingNew(q, e.id, e.tbMode, e.tbNode, e.algo, i);
      }
    }
  }

  lemma UnstableNothingNew(s: State, ok: set<nat>, i: nat)
    requires Shape(s) && !Stable(s.ff.clients) && i < MAX_CLIENTS
    ensures NothingNew(s, Recomputed(s, ok), false, i)
  {}

  lemma LeaveNothingNew(s: State, slot: nat, ok: set<nat>, i: nat)
    requires Shape(s) && slot < MAX_CLIENTS && i < MAX_CLIENTS && s.algo != ALGO_LMS
    requires !Stable(Vacated(s, slot).ff.clients)
    ensures NothingNew(s, Left(s, slot, ok), false, i)
  {}

  lemma JoinNothingNew(s: State, id: u32, tbMode: u8, tbNode: u32, algo: u16, i: nat)
    requires Shape(s) && i < MAX_CLIENTS
    ensures NothingNew(s, Joined(s, id, tbMode, tbNode, algo), false, i)
  {}

  // ---------- Nobody waits for what is already decidable ----------

  /** Every connected client but the caller that still waits would be told to wait again. */
  ghost predicate WaitsRightly(t: seq<Client>, caller: int, last: seq<u8>)
    requires |t| == |last|
  {
    forall i :: 0 <= i < |t| && t[i].used && i != caller && last[i] == VOTE_WAIT_FOR_REPLY ==>
      Lms.Vote(t, i, last) == VOTE_WAIT_FOR_REPLY
  }

  /** After an LMS client asked or reported its membership, no other client is left waiting
      whose vote could be decided. */
  lemma RefreshSettlesWaiters(s: State, c: Sess, frame: Bytes, env: Env)
    requires Shape(s) && s.algo == ALGO_LMS
    ensures var o := FrameStep(s, c, frame, env);
            VoteTold(o.reply).Some?
            && !(o.reply.request.NodeListReply? && o.reply.request.listType == QUORUM) ==>
              Shape(o.server) && WaitsRightly(o.server.ff.clients, c.slot, o.server.last)
  {
    hide M.DecodeOf, Refreshed, Joined, LmsDecided, WaitsRightly, InitError;
    if M.DecodeOf(frame, RX_SIZE).Ok? && c.slot >= 0 {
      DecodedNodesFit(frame, RX_SIZE);
      var m := M.DecodeOf(frame, RX_SIZE).value;
      var stored := WithClient(s, c.slot, MembershipStored(s.ff.clients[c.slot], m));
      LmsDecidedSettles(s, c.slot, env.ok);
      LmsDecidedSettles(stored, c.slot, env.ok);
    }
  }

  lemma LmsDecidedSettles(q: State, slot: nat, ok: set<nat>)
    requires Shape(q) && q.algo == ALGO_LMS && slot < MAX_CLIENTS
    ensures var r := Refreshed(LmsDecided(q, slot).0, slot, ok);
            WaitsRightly(r.ff.clients, slot, r.last)
  {
    hide Lms.Vote, Lms.Saved, RefreshedFrom;
    var d := LmsDecided(q, slot).0;
    FailureLaws.RefreshSettles(d, slot, 0, ok);
    RefreshFrame(d, slot, 0, ok);
  }

  /** The same when an LMS client leaves. */
  lemma LeaveSettlesWaiters(s: State, slot: nat, ok: set<nat>)
    requires Shape(s) && s.algo == ALGO_LMS && slot < MAX_CLIENTS
    ensures WaitsRightly(Left(s, slot, ok).ff.clients, -1, Left(s, slot, ok).last)
  {
    hide Lms.Vote, RefreshedFrom;
    FailureLaws.RefreshSettles(Vacated(s, slot), -1, 0, ok);
    RefreshFrame(Vacated(s, slot), -1, 0, ok);
  }

  /** When an FFSplit client leaves, a decision is taken exactly when the table of the others
      is stable. */
  lemma LeaveDecidesExactly(s: State, slot: nat, ok: set<nat>)
    requires Shape(s) && s.algo == ALGO_FFSPLIT && slot < MAX_CLIENTS
    ensures |Left(s, slot, ok).decisions| > |s.decisions| <==> Stable(Left(s, slot, ok).ff.clients)
    ensures forall k :: 0 <= k < MAX_CLIENTS ==>
              Left(s, slot, ok).ff.clients[k] == if k == slot then s.ff.clients[k].(used := false) else s.ff.clients[k]
  {
    LeftSeats(s, slot, ok);
    hide Recomputed, Stable;
    var v := Vacated(s, slot);
    RecomputeSeats(v, ok);
    if Stable(v.ff.clients) { RecomputedElsewhere(v, ok); } else { UnstableNothingNew(v, ok, 0); }
  }
}
