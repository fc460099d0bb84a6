/** One push round: ACKs wait for NACKs, the phase summarises the slot states when pushes
    succeed, and every round completes. */
module RoundLaws {
  import opened Defs
  import opened FFSplit
  import opened Push
  import opened PushLaws

  // ---------- No ACK while a NACK is pending, whatever fails ----------

  ghost predicate AckPushed(s: State, s': State)
    requires Shape(s) && Shape(s')
  {
    exists i, k :: 0 <= i < MAX_CLIENTS && |s.logs[i]| <= k < |s'.logs[i]| && IsAck(s'.logs[i][k])
  }

  predicate IsAck(n: Note) {
    n.Pushed? && n.vote == VOTE_ACK
  }

  /** A recompute that pushes an ACK leaves no connected slot with a pending NACK. */
  lemma RecomputedAckIsLast(s: State, ok: set<nat>)
    requires Shape(s)
    ensures AckPushed(s, Recomputed(s, ok)) ==> !AnyIn(Recomputed(s, ok), NACK_PENDING, NACK_PENDING)
  {
    var r := Recomputed(s, ok);
    if AckPushed(s, r) {
      assert Stable(s.ff.clients);
      hide Recomputed, Stable;
      RecomputedElsewhere(s, ok);
      var i, k :| 0 <= i < MAX_CLIENTS && |s.logs[i]| <= k < |r.logs[i]| && IsAck(r.logs[i][k]);
      if Used(s, i) {
        RecomputedAt(s, ok, i);
      } else {
        UnusedKeepsLog(s, ok, i);
      }
      forall j | 0 <= j < MAX_CLIENTS && Used(r, j)
        ensures r.st[j] != NACK_PENDING
      {
        assert Used(s, j);
        RecomputedAt(s, ok, j);
      }
    }
  }

  lemma UnusedKeepsLog(s: State, ok: set<nat>, i: nat)
    requires Shape(s) && i < MAX_CLIENTS && !Used(s, i) && Stable(s.ff.clients)
    ensures Recomputed(s, ok).logs[i] == s.logs[i]
  {
    hide Stable;
    var v := Voted(s);
    DrainedAt(v, NACK_DUE, VOTE_NACK, NACK_PENDING, ok, i);
    DrainedAt(Drained(v, NACK_DUE, VOTE_NACK, NACK_PENDING, ok), ACK_DUE, VOTE_ACK, ACK_PENDING, ok, i);
  }

  /** A reply that releases ACKs does so only when no connected slot has a NACK due or pending. */
  lemma AnsweredAckIsLast(s: State, i: nat, n: nat, ok: set<nat>)
    requires Shape(s) && i < MAX_CLIENTS
    ensures AckPushed(s, Answered(s, i, n, ok)) ==>
              !AnyIn(Answered(s, i, n, ok), NACK_DUE, NACK_PENDING)
              && !AnyIn(Answered(s, i, n, ok), NACK_PENDING, NACK_PENDING)
  {
    hide Drained;
    var m := Noted(s, i, n).(st := s.st[i := NONE]);
    var r := Answered(s, i, n, ok);
    if Matches(s, i, n) && m.phase == 1 && !AnyIn(m, NACK_DUE, NACK_PENDING) {
      DrainedElsewhere(m, ACK_DUE, VOTE_ACK, ACK_PENDING, ok);
      forall j | 0 <= j < MAX_CLIENTS && Used(r, j)
        ensures r.st[j] != NACK_DUE && r.st[j] != NACK_PENDING
      {
        assert Used(m, j) && !Due(m, j, NACK_DUE) && !Due(m, j, NACK_PENDING);
        DrainedAt(m, ACK_DUE, VOTE_ACK, ACK_PENDING, ok, j);
      }
    }
  }

  // ---------- The phase invariant when pushes succeed ----------

  predicate Delivers(ok: set<nat>) {
    forall i :: 0 <= i < MAX_CLIENTS ==> i in ok
  }

  predicate TidySlot(phase: u8, st: u8) {
    match phase
    case 0 => st == NONE
    case 1 => st == NONE || st == ACK_DUE || st == NACK_PENDING
    case 2 => st == NONE || st == ACK_PENDING
    case _ => false
  }

  /** Phase 0: all slots idle; 1: idle, ACK due or NACK pending; 2: idle or ACK pending. */
  predicate Tidy(s: State) {
    && Shape(s) && s.phase <= 2
    && forall i :: 0 <= i < MAX_CLIENTS && Used(s, i) ==> TidySlot(s.phase, s.st[i])
  }

  lemma RecomputedTidy(s: State, ok: set<nat>)
    requires Tidy(s) && Delivers(ok)
    ensures Tidy(Recomputed(s, ok))
  {
    if Stable(s.ff.clients) {
      hide Recomputed, Stable;
      var r := Recomputed(s, ok);
      RecomputedElsewhere(s, ok);
      forall i | 0 <= i < MAX_CLIENTS && Used(r, i)
        ensures TidySlot(r.phase, r.st[i])
      {
        assert Used(s, i);
        RecomputedAt(s, ok, i);
      }
    } else {
      assert forall i :: Used(Recomputed(s, ok), i) ==> Used(s, i);
    }
  }

  lemma AnsweredTidy(s: State, i: nat, n: nat, ok: set<nat>)
    requires Tidy(s) && Delivers(ok) && i < MAX_CLIENTS
    ensures Tidy(Answered(s, i, n, ok))
  {
    hide Drained;
    var m := Noted(s, i, n).(st := s.st[i := NONE]);
    var r := Answered(s, i, n, ok);
    DrainedElsewhere(m, ACK_DUE, VOTE_ACK, ACK_PENDING, ok);
    forall j | 0 <= j < MAX_CLIENTS && Used(r, j)
      ensures TidySlot(r.phase, r.st[j])
    {
      assert Used(s, j) && Used(m, j);
      assert Due(m, j, m.st[j]);
      DrainedAt(m, ACK_DUE, VOTE_ACK, ACK_PENDING, ok, j);
    }
  }

  lemma LeftTidy(s: State, i: nat, ok: set<nat>)
    requires Tidy(s) && Delivers(ok) && i < MAX_CLIENTS
    ensures Tidy(Left(s, i, ok))
  {
    var v := Vacated(s, i);
    assert forall j :: Used(v, j) ==> Used(s, j);
    if s.algo == ALGO_FFSPLIT {
      RecomputedTidy(v, ok);
      ForgottenTidy(Recomputed(v, ok));
    } else if s.algo == ALGO_LMS {
      RefreshFrame(v, -1, 0, ok);
      assert forall j :: Used(Refreshed(v, -1, ok), j) ==> Used(s, j);
      ForgottenTidy(Refreshed(v, -1, ok));
    } else {
      ForgottenTidy(v);
    }
  }

  lemma ForgottenTidy(s: State)
    requires Tidy(s)
    ensures Tidy(Forgotten(s))
  {
    if Empty(s) {
      assert forall i :: Used(Forgotten(s), i) ==> Used(s, i);
    }
  }

  // ---------- A round completes ----------

  datatype Reply = Reply(slot: nat, n: nat)

  /** The state after the replies `rs`, in that order. */
  ghost function AfterReplies(s: State, rs: seq<Reply>, ok: set<nat>): (r: State)
    requires Shape(s) && forall k :: 0 <= k < |rs| ==> rs[k].slot < MAX_CLIENTS
    ensures Shape(r)
  {
    if rs == [] then s
    else Answered(AfterReplies(s, rs[..|rs| - 1], ok), rs[|rs| - 1].slot, rs[|rs| - 1].n, ok)
  }

  function Pushes(log: seq<Note>): (r: seq<Note>)
    ensures forall p :: p in r ==> p.Pushed?
  {
    if log == [] then []
    else Pushes(log[..|log| - 1]) + if log[|log| - 1].Pushed? then [log[|log| - 1]] else []
  }

  /** Some vote in the log was confirmed by its number afterwards. */
  predicate Confirmed(log: seq<Note>) {
    if log == [] then false
    else
      var front := log[..|log| - 1];
      Confirmed(front) || (log[|log| - 1].Replied? && exists p :: p in Pushes(front) && p.n == log[|log| - 1].n)
  }

  lemma NoteAdded(log: seq<Note>, x: Note)
    ensures Pushes(log + [x]) == Pushes(log) + if x.Pushed? then [x] else []
    ensures Confirmed(log + [x]) <==>
            Confirmed(log) || (x.Replied? && exists p :: p in Pushes(log) && p.n == x.n)
  {
    assert (log + [x])[..|log|] == log;
  }

  lemma NothingYet()
    ensures Pushes([]) == [] && !Confirmed([])
  {}

  /** What happened on slot `i` since the decision taken in `s`. */
  function Since(s: State, r: State, i: nat): seq<Note>
    requires Shape(s) && Shape(r) && i < MAX_CLIENTS && s.logs[i] <= r.logs[i]
  {
    r.logs[i][|s.logs[i]|..]
  }

  ghost predicate RoundSlot(s: State, r: State, i: nat)
    requires Shape(s) && Shape(r) && i < MAX_CLIENTS
  {
    && s.logs[i] <= r.logs[i]
    && var log := Since(s, r, i);
       var vote := VoteFor(r.ff.quorate, s.ff.clients[i].nodeId);
       var sent := [NextPush(s, i, vote)];
       match r.st[i]
       case 0 => Pushes(log) == sent && Confirmed(log) && r.phase <= 2 && (r.phase == 1 ==> vote == VOTE_NACK)
       case 2 => Pushes(log) == [] && !Confirmed(log) && vote == VOTE_ACK && r.phase == 1 && r.sn[i] == s.sn[i]
       case 3 => Pushes(log) == sent && !Confirmed(log) && vote == VOTE_NACK && r.phase == 1 && r.sn[i] == s.sn[i] + 1
       case 4 => Pushes(log) == sent && !Confirmed(log) && vote == VOTE_ACK && r.phase == 2 && r.sn[i] == s.sn[i] + 1
       case _ => false
  }

  ghost predicate InRound(s: State, r: State) {
    && Shape(s) && Shape(r) && r.ff == s.ff.(quorate := Chosen(s.ff)) && r.phase <= 2
    && (forall i :: 0 <= i < MAX_CLIENTS && Used(s, i) ==> RoundSlot(s, r, i))
    && (r.phase == 1 ==> AnyIn(r, NACK_PENDING, NACK_PENDING))
    && (r.phase == 2 ==> AnyIn(r, ACK_PENDING, ACK_PENDING))
  }

  lemma SlotStarts(s: State, ok: set<nat>, i: nat)
    requires Shape(s) && Stable(s.ff.clients) && Delivers(ok) && Used(s, i)
    ensures RoundSlot(s, Recomputed(s, ok), i)
  {
    hide Recomputed, Stable, Pushes, Confirmed;
    NothingYet();
    var r := Recomputed(s, ok);
    RecomputedElsewhere(s, ok);
    RecomputedAt(s, ok, i);
    var x := NextPush(s, i, VoteFor(r.ff.quorate, s.ff.clients[i].nodeId));
    NoteAdded([], x);
    assert [] + [x] == [x];
    if r.st[i] == ACK_DUE {
      assert Since(s, r, i) == [];
      SilentSlot(s, ok, i);
    } else {
      assert Since(s, r, i) == [x];
    }
  }

  lemma SilentSlot(s: State, ok: set<nat>, i: nat)
    requires Shape(s) && Stable(s.ff.clients) && Delivers(ok) && Used(s, i)
    requires Recomputed(s, ok).st[i] == ACK_DUE
    ensures Recomputed(s, ok).sn[i] == s.sn[i] && Recomputed(s, ok).phase == 1
  {
    hide Drained, Stable;
    var v := Voted(s);
    var nacked := Drained(v, NACK_DUE, VOTE_NACK, NACK_PENDING, ok);
    DrainedAt(v, NACK_DUE, VOTE_NACK, NACK_PENDING, ok, i);
    DrainedElsewhere(v, NACK_DUE, VOTE_NACK, NACK_PENDING, ok);
    DrainedAt(nacked, ACK_DUE, VOTE_ACK, ACK_PENDING, ok, i);
    assert Due(v, i, v.st[i]) && Due(nacked, i, nacked.st[i]);
  }

  lemma RoundStarts(s: State, ok: set<nat>)
    requires Shape(s) && Stable(s.ff.clients) && Delivers(ok)
    ensures InRound(s, Recomputed(s, ok))
  {
    hide Recomputed, Stable;
    var r := Recomputed(s, ok);
    RecomputedElsewhere(s, ok);
    forall i | 0 <= i < MAX_CLIENTS && Used(s, i)
      ensures RoundSlot(s, r, i)
    {
      SlotStarts(s, ok, i);
    }
    if r.phase == 1 {
      var i :| 0 <= i < MAX_CLIENTS && Used(s, i) && i in ok && s.ff.clients[i].nodeId !in Chosen(s.ff);
      RecomputedAt(s, ok, i);
      assert Due(r, i, NACK_PENDING);
    } else if r.phase == 2 {
      var i :| 0 <= i < MAX_CLIENTS && Used(s, i);
      RecomputedAt(s, ok, i);
      assert Due(r, i, ACK_PENDING);
    }
  }

  lemma SlotNoted(s: State, r: State, i: nat, n: nat)
    requires Shape(s) && Shape(r) && i < MAX_CLIENTS && RoundSlot(s, r, i)
    ensures var r' := if Matches(r, i, n) then Noted(r, i, n).(st := r.st[i := NONE]) else Noted(r, i, n);
            RoundSlot(s, r', i)
  {
    hide Pushes, Confirmed;
    NoteAdded(Since(s, r, i), Replied(n));
    assert (r.logs[i] + [Replied(n)])[|s.logs[i]|..] == Since(s, r, i) + [Replied(n)];
  }

  lemma SlotReleased(s: State, r: State, ok: set<nat>, i: nat)
    requires Shape(s) && Shape(r) && Delivers(ok) && r.ff == s.ff.(quorate := Chosen(s.ff)) && r.phase == 1
    requires Used(s, i) && RoundSlot(s, r, i) && r.st[i] != NACK_PENDING
    ensures RoundSlot(s, AcksReleased(r, ok), i)
    ensures r.st[i] == ACK_DUE ==> AcksReleased(r, ok).phase == 2 && AcksReleased(r, ok).st[i] == ACK_PENDING
  {
    hide Drained, Pushes, Confirmed;
    DrainedElsewhere(r, ACK_DUE, VOTE_ACK, ACK_PENDING, ok);
    DrainedAt(r, ACK_DUE, VOTE_ACK, ACK_PENDING, ok, i);
    if Due(r, i, ACK_DUE) {
      assert Sends(r, ACK_DUE, ok);
      var x := NextPush(r, i, VOTE_ACK);
      NoteAdded(Since(s, r, i), x);
      assert (r.logs[i] + [x])[|s.logs[i]|..] == Since(s, r, i) + [x];
      assert [] + [x] == [x];
    }
  }

  lemma AcksStart(s: State, r: State, ok: set<nat>)
    requires Shape(s) && Shape(r) && Delivers(ok) && r.ff == s.ff.(quorate := Chosen(s.ff)) && r.phase == 1
    requires forall i :: 0 <= i < MAX_CLIENTS && Used(s, i) ==> RoundSlot(s, r, i)
    requires !AnyIn(r, NACK_DUE, NACK_PENDING)
    ensures InRound(s, AcksReleased(r, ok))
  {
    hide Drained, RoundSlot;
    var r' := AcksReleased(r, ok);
    DrainedElsewhere(r, ACK_DUE, VOTE_ACK, ACK_PENDING, ok);
    forall i | 0 <= i < MAX_CLIENTS && Used(s, i)
      ensures RoundSlot(s, r', i)
      ensures r.st[i] == ACK_DUE ==> r'.phase == 2 && r'.st[i] == ACK_PENDING
    {
      assert RoundSlot(s, r, i) && Used(r, i) && !Due(r, i, NACK_PENDING);
      SlotReleased(s, r, ok, i);
    }
    if r'.phase == 2 {
      var i :| 0 <= i < MAX_CLIENTS && Due(r, i, ACK_DUE) && i in ok;
      assert Used(s, i);
      assert Due(r', i, ACK_PENDING);
    }
  }

  lemma RoundGoesOn(s: State, r: State, i: nat, n: nat, ok: set<nat>)
    requires InRound(s, r) && Delivers(ok) && Used(s, i)
    ensures InRound(s, Answered(r, i, n, ok))
  {
    var m := if Matches(r, i, n) then Noted(r, i, n).(st := r.st[i := NONE]) else Noted(r, i, n);
    SlotNoted(s, r, i, n);
    forall j | 0 <= j < MAX_CLIENTS && Used(s, j)
      ensures RoundSlot(s, m, j)
    {
      assert RoundSlot(s, r, j);
    }
    if !Matches(r, i, n) {
      assert forall j, a :: Due(r, j, a) ==> Due(m, j, a);
    } else if m.phase == 1 {
      if !AnyIn(m, NACK_DUE, NACK_PENDING) {
        AcksStart(s, m, ok);
      } else {
        var j :| 0 <= j < MAX_CLIENTS && (Due(m, j, NACK_DUE) || Due(m, j, NACK_PENDING));
        assert Used(s, j) && RoundSlot(s, m, j);
        assert AnyIn(m, NACK_PENDING, NACK_PENDING);
      }
    } else if m.phase == 2 {
      if !AnyIn(m, ACK_DUE, ACK_PENDING) {
        forall j | 0 <= j < MAX_CLIENTS && Used(s, j)
          ensures RoundSlot(s, m.(phase := 0), j)
        {
          assert RoundSlot(s, m, j) && Used(m, j) && !Due(m, j, ACK_DUE) && !Due(m, j, ACK_PENDING);
        }
      } else {
        var j :| 0 <= j < MAX_CLIENTS && (Due(m, j, ACK_DUE) || Due(m, j, ACK_PENDING));
        assert Used(s, j) && RoundSlot(s, m, j);
        assert AnyIn(m, ACK_PENDING, ACK_PENDING);
      }
    }
  }

  predicate FromUsed(s: State, rs: seq<Reply>)
    requires Shape(s)
  {
    forall k :: 0 <= k < |rs| ==> rs[k].slot < MAX_CLIENTS && Used(s, rs[k].slot)
  }

  lemma {:induction false} RoundInvariant(s: State, rs: seq<Reply>, ok: set<nat>)
    requires Shape(s) && Stable(s.ff.clients) && Delivers(ok) && FromUsed(s, rs)
    ensures InRound(s, AfterReplies(Recomputed(s, ok), rs, ok))
  {
    hide Recomputed, Stable, InRound;
    if rs == [] {
      RoundStarts(s, ok);
    } else {
      var front := rs[..|rs| - 1];
      RoundInvariant(s, front, ok);
      RoundGoesOn(s, AfterReplies(Recomputed(s, ok), front, ok), rs[|rs| - 1].slot, rs[|rs| - 1].n, ok);
    }
  }

  /** The answer that ends the wait of slot `i` in this round. */
  ghost predicate Done(s: State, r: State, i: nat)
    requires Shape(s) && Shape(r) && i < MAX_CLIENTS
  {
    s.logs[i] <= r.logs[i] && Confirmed(Since(s, r, i))
  }

  /** After a decision, with pushes succeeding and any replies in any order (stale ones
      included): nobody is pushed anything but its decided vote, and that at most once;
      the phase is 0 exactly when every connected client was pushed its vote and confirmed
      it by number; ACKs go out only after every NACK is confirmed; and until the end some
      pushed vote is still unconfirmed, so the round cannot stall by itself. */
  lemma RoundCompletes(s: State, rs: seq<Reply>, ok: set<nat>)
    requires Shape(s) && Stable(s.ff.clients) && Delivers(ok) && FromUsed(s, rs)
    ensures var r := AfterReplies(Recomputed(s, ok), rs, ok);
            && (forall i :: 0 <= i < MAX_CLIENTS && Used(s, i) ==>
                  && s.logs[i] <= r.logs[i]
                  && var sent := [NextPush(s, i, VoteFor(Chosen(s.ff), s.ff.clients[i].nodeId))];
                     Pushes(Since(s, r, i)) == sent || (Pushes(Since(s, r, i)) == [] && !Done(s, r, i) && r.phase == 1))
            && (r.phase == 0 <==> forall i :: 0 <= i < MAX_CLIENTS && Used(s, i) ==> Done(s, r, i))
            && (r.phase != 0 ==>
                  exists i :: 0 <= i < MAX_CLIENTS && Used(s, i) && |Pushes(Since(s, r, i))| == 1 && !Done(s, r, i))
            && ((exists i :: 0 <= i < MAX_CLIENTS && Used(s, i) && s.ff.clients[i].nodeId in Chosen(s.ff)
                             && Pushes(Since(s, r, i)) != []) ==>
                  forall j :: 0 <= j < MAX_CLIENTS && Used(s, j) && s.ff.clients[j].nodeId !in Chosen(s.ff) ==>
                    Done(s, r, j))
  {
    hide AfterReplies, Recomputed, Stable;
    var r := AfterReplies(Recomputed(s, ok), rs, ok);
    RoundInvariant(s, rs, ok);
    forall i | 0 <= i < MAX_CLIENTS && Used(s, i)
      ensures RoundSlot(s, r, i)
      ensures Done(s, r, i) <==> r.st[i] == NONE
    {}
    if r.phase == 1 {
      var i :| 0 <= i < MAX_CLIENTS && (Due(r, i, NACK_PENDING) || Due(r, i, NACK_PENDING));
      assert Used(s, i) && RoundSlot(s, r, i);
    } else if r.phase == 2 {
      var i :| 0 <= i < MAX_CLIENTS && (Due(r, i, ACK_PENDING) || Due(r, i, ACK_PENDING));
      assert Used(s, i) && RoundSlot(s, r, i);
    }
  }
}
