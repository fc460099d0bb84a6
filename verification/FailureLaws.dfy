/** Where the push protocol depends on its environment: exactly when lost NACKs and when a
    second session of a node are harmful. A repeated waiter refresh never is. */
module FailureLaws {
  import opened Defs
  import opened FFSplit
  import opened Push
  import opened PushLaws
  import opened RoundLaws
  import Lms
  import LmsLaws
  import opened FFSplitLaws

  // ---------- Lost NACKs: the exact condition ----------

  predicate Nacked(s: State, q: seq<u32>, i: int)
    requires Shape(s)
  {
    Used(s, i) && s.ff.clients[i].nodeId !in q
  }

  /** After a decision either NACKs are pending first, or every holder is selected --
      exactly when a NACKed client's transport works or no NACKed client holds an ACK. The
      left side speaks of the new selection: when it fails, exclusivity itself fails only
      once an ACK of the new selection is taken too. */
  lemma LostNacksExactly(s: State, ok: set<nat>)
    requires Shape(s) && Stable(s.ff.clients)
    ensures var q, r := Chosen(s.ff), Recomputed(s, ok);
            (r.phase == 1 || HoldersWithin(r, q))
            <==>
            ((exists i :: 0 <= i < MAX_CLIENTS && Nacked(s, q, i) && i in ok)
             || (forall i :: 0 <= i < MAX_CLIENTS && Nacked(s, q, i) ==> !MayHold(s.logs[i])))
  {
    hide Recomputed, Stable;
    var q, r := Chosen(s.ff), Recomputed(s, ok);
    RecomputedElsewhere(s, ok);
    forall i | 0 <= i < MAX_CLIENTS && Used(s, i)
      ensures i in ok && Nacked(s, q, i) ==> r.phase == 1
      ensures i !in ok ==> r.logs[i] == s.logs[i]
      ensures Used(r, i) && r.ff.clients[i] == s.ff.clients[i]
    {
      RecomputedAt(s, ok, i);
    }
    assert forall i :: Used(r, i) ==> Used(s, i);
    if r.phase != 1 {
      forall i | 0 <= i < MAX_CLIENTS && Nacked(s, q, i)
        ensures Holder(r, i) <==> MayHold(s.logs[i])
      {}
    }
  }

  // ---------- A second session of a node: the exact condition ----------

  lemma {:induction false} RepliesKeep(s: State, rs: seq<Reply>, ok: set<nat>)
    requires Inv(s) && s.algo == ALGO_FFSPLIT && FromUsed(s, rs)
    ensures var r := AfterReplies(s, rs, ok);
            Inv(r) && r.algo == ALGO_FFSPLIT && r.ff == s.ff
  {
    if rs != [] {
      var front, last := rs[..|rs| - 1], rs[|rs| - 1];
      RepliesKeep(s, front, ok);
      assert Used(s, last.slot);
      var r := AfterReplies(s, front, ok);
      hide Inv;
      assert Used(r, last.slot);
      AnsweredKeeps(r, last.slot, last.n, ok);
    }
  }

  /** Phase 1 that no reply can end: a NACK could not be pushed, or nothing is pending. */
  predicate Stuck(s: State)
    requires Shape(s)
  {
    s.phase == 1 && (AnyIn(s, NACK_DUE, NACK_DUE) || !AnyIn(s, NACK_PENDING, ACK_PENDING))
  }

  lemma {:induction false} StuckStays(s: State, rs: seq<Reply>, ok: set<nat>)
    requires Shape(s) && Stuck(s) && FromUsed(s, rs)
    ensures var r := AfterReplies(s, rs, ok);
            Stuck(r) && r.ff == s.ff
  {
    if rs != [] {
      var front, last := rs[..|rs| - 1], rs[|rs| - 1];
      StuckStays(s, front, ok);
      var r := AfterReplies(s, front, ok);
      assert Used(s, last.slot) && Used(r, last.slot);
      StuckStep(r, last.slot, last.n, ok);
    }
  }

  lemma StuckStep(s: State, i: nat, n: nat, ok: set<nat>)
    requires Shape(s) && Stuck(s) && Used(s, i)
    ensures Stuck(Answered(s, i, n, ok)) && Answered(s, i, n, ok).ff == s.ff
  {
    hide Drained;
    var m := Noted(s, i, n);
    assert forall k, a :: Due(m, k, a) <==> Due(s, k, a);
    if Matches(s, i, n) {
      assert Due(s, i, s.st[i]);
      var k :| 0 <= k < MAX_CLIENTS && (Due(s, k, NACK_DUE) || Due(s, k, NACK_DUE));
      var r := m.(st := s.st[i := NONE]);
      assert Due(r, k, NACK_DUE);
    }
  }

  /** Every slot below `n` with a pending NACK confirms it. */
  function Confirmations(s: State, n: nat): (rs: seq<Reply>)
    requires Shape(s) && n <= MAX_CLIENTS
    ensures FromUsed(s, rs)
  {
    if n == 0 then []
    else
      var front := Confirmations(s, n - 1);
      if Due(s, n - 1, NACK_PENDING) then front + [Reply(n - 1, s.sn[n - 1])] else front
  }

  predicate PendingFrom(s: State, n: nat)
    requires Shape(s)
  {
    exists k :: n <= k < MAX_CLIENTS && Due(s, k, NACK_PENDING)
  }

  predicate ConfirmedBelow(s: State, n: nat, i: nat, r: State)
    requires Shape(s) && Shape(r) && i < MAX_CLIENTS
  {
    && r.ff == s.ff && r.logs[i] == s.logs[i]
    && if PendingFrom(s, n) || !PendingFrom(s, 0) then
         && r.phase == 1 && r.sn == s.sn
         && forall k :: 0 <= k < MAX_CLIENTS ==>
              r.st[k] == if k < n && Due(s, k, NACK_PENDING) then NONE else s.st[k]
       else r.phase != 1
  }

  lemma {:induction false} ConfirmAll(s: State, n: nat, i: nat, ok: set<nat>)
    requires Shape(s) && s.phase == 1 && n <= MAX_CLIENTS && i < MAX_CLIENTS && s.st[i] == NONE
    requires !AnyIn(s, NACK_DUE, NACK_DUE)
    ensures ConfirmedBelow(s, n, i, AfterReplies(s, Confirmations(s, n), ok))
  {
    if n == 0 {
      NothingConfirmed(s, i);
    } else {
      hide ConfirmedBelow, Answered;
      ConfirmAll(s, n - 1, i, ok);
      var front := Confirmations(s, n - 1);
      var r := AfterReplies(s, front, ok);
      if Due(s, n - 1, NACK_PENDING) {
        var rs := front + [Reply(n - 1, s.sn[n - 1])];
        assert rs[..|rs| - 1] == front;
        ConfirmStep(s, n, i, r, ok);
      } else {
        SkipStep(s, n, i, r);
      }
    }
  }

  lemma NothingConfirmed(s: State, i: nat)
    requires Shape(s) && s.phase == 1 && i < MAX_CLIENTS
    ensures ConfirmedBelow(s, 0, i, s)
  {}

  lemma SkipStep(s: State, n: nat, i: nat, r: State)
    requires Shape(s) && Shape(r) && 0 < n <= MAX_CLIENTS && i < MAX_CLIENTS
    requires ConfirmedBelow(s, n - 1, i, r) && !Due(s, n - 1, NACK_PENDING)
    ensures ConfirmedBelow(s, n, i, r)
  {
    if k :| n - 1 <= k < MAX_CLIENTS && Due(s, k, NACK_PENDING) {
      assert PendingFrom(s, n);
    }
  }

  lemma ConfirmStep(s: State, n: nat, i: nat, r: State, ok: set<nat>)
    requires Shape(s) && s.phase == 1 && 0 < n <= MAX_CLIENTS && i < MAX_CLIENTS && s.st[i] == NONE
    requires !AnyIn(s, NACK_DUE, NACK_DUE) && Due(s, n - 1, NACK_PENDING)
    requires Shape(r) && ConfirmedBelow(s, n - 1, i, r)
    ensures ConfirmedBelow(s, n, i, Answered(r, n - 1, s.sn[n - 1], ok))
  {
    hide Drained;
    var m := Noted(r, n - 1, s.sn[n - 1]).(st := r.st[n - 1 := NONE]);
    assert Matches(r, n - 1, s.sn[n - 1]);
    assert forall k :: 0 <= k < MAX_CLIENTS ==> m.st[k] == if k < n && Due(s, k, NACK_PENDING) then NONE else s.st[k];
    assert forall k :: !Due(s, k, NACK_DUE);
    assert PendingFrom(s, 0);
    if k :| n <= k < MAX_CLIENTS && Due(s, k, NACK_PENDING) {
      assert Due(m, k, NACK_PENDING);
    } else {
      forall k | 0 <= k < MAX_CLIENTS && Used(m, k)
        ensures m.st[k] != NACK_DUE && m.st[k] != NACK_PENDING
      {
        assert !Due(s, k, NACK_DUE) && (Due(s, k, NACK_PENDING) ==> k < n);
      }
      DrainedAt(m, ACK_DUE, VOTE_ACK, ACK_PENDING, ok, i);
      DrainedElsewhere(m, ACK_DUE, VOTE_ACK, ACK_PENDING, ok);
    }
  }

  /** The INIT of a second session of node `id` is harmful: the node is refused and may hold
      an ACK, its NACK is forgotten, and the round can still end without it, because another
      NACK is pending and none is left to push. */
  predicate Wipes(s: State, id: u32)
    requires Shape(s) && SlotOf(s.ff.clients, id) >= 0
  {
    var i := SlotOf(s.ff.clients, id);
    && s.phase == 1 && MayHold(s.logs[i]) && !Selects(s, i)
    && (exists k :: 0 <= k < MAX_CLIENTS && k != i && Due(s, k, NACK_PENDING))
    && !(exists k :: 0 <= k < MAX_CLIENTS && k != i && Due(s, k, NACK_DUE))
  }

  lemma WipedBreaks(s: State, id: u32, tbMode: u8, tbNode: u32, ok: set<nat>)
    requires Inv(s) && s.algo == ALGO_FFSPLIT && SlotOf(s.ff.clients, id) >= 0 && Wipes(s, id)
    ensures var j := Joined(s, id, tbMode, tbNode, ALGO_FFSPLIT);
            var r := AfterReplies(j, Confirmations(j, MAX_CLIENTS), ok);
            r.phase != 1 && !HoldersWithin(r, r.ff.quorate)
  {
    var i, j := SlotOf(s.ff.clients, id), Joined(s, id, tbMode, tbNode, ALGO_FFSPLIT);
    assert j.st[i] == NONE && j.logs[i] == s.logs[i] && j.phase == 1;
    assert forall k, a :: k != i ==> (Due(j, k, a) <==> Due(s, k, a));
    assert PendingFrom(j, 0);
    ConfirmAll(j, MAX_CLIENTS, i, ok);
    var r := AfterReplies(j, Confirmations(j, MAX_CLIENTS), ok);
    assert !PendingFrom(j, MAX_CLIENTS);
    assert Holder(r, i);
  }

  lemma UnwipedHolds(s: State, id: u32, tbMode: u8, tbNode: u32, rs: seq<Reply>, ok: set<nat>)
    requires Inv(s) && s.algo == ALGO_FFSPLIT && SlotOf(s.ff.clients, id) >= 0 && !Wipes(s, id)
    requires FromUsed(Joined(s, id, tbMode, tbNode, ALGO_FFSPLIT), rs)
    ensures var r := AfterReplies(Joined(s, id, tbMode, tbNode, ALGO_FFSPLIT), rs, ok);
            r.phase != 1 ==> HoldersWithin(r, r.ff.quorate)
  {
    var i, j := SlotOf(s.ff.clients, id), Joined(s, id, tbMode, tbNode, ALGO_FFSPLIT);
    if Unconfirmed(s, id) {
      assert j.phase == 1 && j.st[i] == NONE;
      assert forall k, a :: k != i ==> (Due(j, k, a) <==> Due(s, k, a));
      assert forall k :: 0 <= k < MAX_CLIENTS && Used(s, k) ==> SlotOk(s, k);
      if k :| 0 <= k < MAX_CLIENTS && k != i && Due(s, k, NACK_DUE) {
        assert Due(j, k, NACK_DUE);
      }
      assert Stuck(j);
      StuckStays(j, rs, ok);
    } else {
      JoinedKeeps(s, id, tbMode, tbNode, ALGO_FFSPLIT);
      RepliesKeep(j, rs, ok);
      var r := AfterReplies(j, rs, ok);
    }
  }

  /** A second INIT of a connected node keeps exclusivity over every sequence of replies --
      outside phase 1 all holders are selected -- exactly when it is not harmful. */
  lemma JoinHoldersExactly(s: State, id: u32, tbMode: u8, tbNode: u32, ok: set<nat>)
    requires Inv(s) && s.algo == ALGO_FFSPLIT && SlotOf(s.ff.clients, id) >= 0
    ensures var j := Joined(s, id, tbMode, tbNode, ALGO_FFSPLIT);
            (forall rs: seq<Reply> :: FromUsed(j, rs) ==>
               var r := AfterReplies(j, rs, ok);
               r.phase != 1 ==> HoldersWithin(r, r.ff.quorate))
            <==> !Wipes(s, id)
  {
    var j := Joined(s, id, tbMode, tbNode, ALGO_FFSPLIT);
    if Wipes(s, id) {
      WipedBreaks(s, id, tbMode, tbNode, ok);
      assert FromUsed(j, Confirmations(j, MAX_CLIENTS));
    } else {
      forall rs: seq<Reply> | FromUsed(j, rs)
        ensures var r := AfterReplies(j, rs, ok);
                r.phase != 1 ==> HoldersWithin(r, r.ff.quorate)
      {
        UnwipedHolds(s, id, tbMode, tbNode, rs, ok);
      }
    }
  }

  // ---------- Refreshing twice ----------

  lemma {:induction false} RefreshSettles(s: State, exclude: int, from: nat, ok: set<nat>)
    requires Shape(s) && from <= MAX_CLIENTS
    requires forall i :: 0 <= i < from && Lms.Waits(s.ff.clients, exclude, s.last, i) ==>
               Lms.Vote(s.ff.clients, i, s.last) == VOTE_WAIT_FOR_REPLY
    ensures LmsLaws.Settled(s.ff.clients, exclude, RefreshedFrom(s, exclude, from, ok).last)
    decreases MAX_CLIENTS - from
  {
    if from < MAX_CLIENTS {
      var next := if Lms.Waits(s.ff.clients, exclude, s.last, from) then Rerun(s, from, ok) else s;
      forall i | 0 <= i < from + 1 && Lms.Waits(s.ff.clients, exclude, next.last, i)
        ensures Lms.Vote(s.ff.clients, i, next.last) == VOTE_WAIT_FOR_REPLY
      {
        LmsLaws.WaiterIgnoresOthers(s.ff.clients, i, s.last, next.last);
      }
      RefreshSettles(next, exclude, from + 1, ok);
    }
  }

  lemma {:induction false} SettledIsQuiet(s: State, exclude: int, from: nat, ok: set<nat>)
    requires Shape(s) && from <= MAX_CLIENTS && LmsLaws.Settled(s.ff.clients, exclude, s.last)
    ensures RefreshedFrom(s, exclude, from, ok) == s
    decreases MAX_CLIENTS - from
  {
    if from < MAX_CLIENTS {
      if Lms.Waits(s.ff.clients, exclude, s.last, from) {
        assert Lms.Vote(s.ff.clients, from, s.last) == VOTE_WAIT_FOR_REPLY;
        assert Lms.Saved(s.ff.clients, from, s.last) == s.last;
      }
      SettledIsQuiet(s, exclude, from + 1, ok);
    }
  }

  /** A second refresh of the waiters pushes nothing and changes nothing. */
  lemma RefreshTwiceIsOnce(s: State, exclude: int, ok: set<nat>, ok': set<nat>)
    requires Shape(s)
    ensures Refreshed(Refreshed(s, exclude, ok), exclude, ok') == Refreshed(s, exclude, ok)
  {
    if s.algo == ALGO_LMS {
      var r := Refreshed(s, exclude, ok);
      RefreshFrame(s, exclude, 0, ok);
      RefreshSettles(s, exclude, 0, ok);
      SettledIsQuiet(r, exclude, 0, ok');
    }
  }
}
