/** The exclusivity invariant: the clients that may hold an acknowledged vote lie inside
    one decided set, and every operation on the shared state keeps it so. */
module PushLaws {
  import opened Defs
  import opened FFSplit
  import opened Push
  import Lms

  // ---------- An independent ledger: who may still hold an ACK ----------

  /** The latest vote the connection took. */
  function Latest(log: seq<Note>): (r: Option<Note>)
    ensures r.Some? ==> r.value.Pushed?
  {
    if log == [] then None
    else
      match log[|log| - 1]
      case Pushed(_, _, _, _) => Some(log[|log| - 1])
      case Replied(_) => Latest(log[..|log| - 1])
  }

  predicate LatestIs(log: seq<Note>, vote: u8, n: nat) {
    Latest(log).Some? && Latest(log).value.vote == vote && Latest(log).value.n == n
  }

  /** An ACK was pushed, and no NACK pushed after it was confirmed by its number. */
  predicate MayHold(log: seq<Note>) {
    if log == [] then false
    else
      var front := log[..|log| - 1];
      match log[|log| - 1]
      case Pushed(v, _, _, _) => v == VOTE_ACK || MayHold(front)
      case Replied(n) => MayHold(front) && !LatestIs(front, VOTE_NACK, n)
  }

  lemma PushRecorded(log: seq<Note>, p: Note)
    requires p.Pushed?
    ensures Latest(log + [p]) == Some(p)
    ensures MayHold(log + [p]) <==> p.vote == VOTE_ACK || MayHold(log)
  {
    assert (log + [p])[..|log|] == log;
  }

  lemma ReplyRecorded(log: seq<Note>, n: nat)
    ensures Latest(log + [Replied(n)]) == Latest(log)
    ensures MayHold(log + [Replied(n)]) <==> MayHold(log) && !LatestIs(log, VOTE_NACK, n)
  {
    assert (log + [Replied(n)])[..|log|] == log;
  }

  // ---------- The invariant ----------

  predicate Holder(s: State, i: int)
    requires Shape(s)
  {
    Used(s, i) && MayHold(s.logs[i])
  }

  predicate Selects(s: State, i: int)
    requires Shape(s) && 0 <= i < MAX_CLIENTS
  {
    s.ff.clients[i].nodeId in s.ff.quorate
  }

  predicate HoldersWithin(s: State, q: seq<u32>)
    requires Shape(s)
  {
    forall i :: 0 <= i < MAX_CLIENTS && Holder(s, i) ==> s.ff.clients[i].nodeId in q
  }

  predicate DecidedSet(s: State, q: Ids) {
    q == [] || q in s.decisions
  }

  /** All clients that may hold an ACK lie inside one decided set (or there are none). */
  ghost predicate Exclusive(s: State)
    requires Shape(s)
  {
    exists q: Ids :: DecidedSet(s, q) && HoldersWithin(s, q)
  }

  predicate SlotOk(s: State, i: nat)
    requires Shape(s) && i < MAX_CLIENTS
  {
    && (s.st[i] == NACK_PENDING ==> LatestIs(s.logs[i], VOTE_NACK, s.sn[i]))
    && match s.phase
       case 0 => s.st[i] <= ACK_DUE && (MayHold(s.logs[i]) ==> Selects(s, i))
       case 1 =>
         s.st[i] <= NACK_PENDING
         && (s.st[i] == NONE ==> !MayHold(s.logs[i]) || Selects(s, i)) && (s.st[i] == ACK_DUE ==> Selects(s, i))
       case 2 =>
         s.st[i] != NACK_PENDING && s.st[i] <= ACK_PENDING
         && (MayHold(s.logs[i]) || s.st[i] == ACK_DUE || s.st[i] == ACK_PENDING ==> Selects(s, i))
       case _ => false
  }

  predicate SlotsOk(s: State)
    requires Shape(s)
  {
    forall i :: 0 <= i < MAX_CLIENTS && Used(s, i) ==> SlotOk(s, i)
  }

  predicate AllIdle(s: State)
    requires Shape(s)
  {
    s.phase == 0 && forall i :: 0 <= i < MAX_CLIENTS && Used(s, i) ==> s.st[i] == NONE
  }

  ghost predicate Inv(s: State) {
    && Shape(s) && DecidedSet(s, s.ff.quorate) && s.phase <= 2
    && (s.algo == 0 || s.algo == ALGO_FFSPLIT || s.algo == ALGO_LMS)
    && (s.algo == 0 ==> Empty(s) && s.phase == 0)
    && (s.algo == ALGO_FFSPLIT ==> SlotsOk(s) && Exclusive(s))
    && (s.algo == ALGO_LMS ==> AllIdle(s))
  }

  /** A decision got a due NACK out (which is phase 1), or refused nobody that may hold an ACK. */
  predicate NacksGetThrough(s: State, s': State)
    requires Shape(s')
  {
    |s'.decisions| > |s.decisions| && s'.phase != 1 ==>
      forall i :: 0 <= i < MAX_CLIENTS && Due(s', i, NACK_DUE) ==> !MayHold(s'.logs[i])
  }

  // ---------- What a recompute does to one slot ----------

  lemma RecomputedAt(s: State, ok: set<nat>, i: nat)
    requires Shape(s) && Stable(s.ff.clients) && Used(s, i)
    ensures var q, r := Chosen(s.ff), Recomputed(s, ok);
            if s.ff.clients[i].nodeId !in q then
              if i in ok then r.st[i] == NACK_PENDING && r.sn[i] == s.sn[i] + 1 && r.phase == 1
                              && r.logs[i] == s.logs[i] + [NextPush(s, i, VOTE_NACK)]
              else r.st[i] == NACK_DUE && r.sn[i] == s.sn[i] + 1 && r.logs[i] == s.logs[i]
            else if r.phase == 1 then r.st[i] == ACK_DUE && r.sn[i] == s.sn[i] && r.logs[i] == s.logs[i]
            else if i !in ok then r.st[i] == ACK_DUE && r.sn[i] == s.sn[i] + 1 && r.logs[i] == s.logs[i]
            else r.st[i] == ACK_PENDING && r.sn[i] == s.sn[i] + 1 && r.phase == 2
                 && r.logs[i] == s.logs[i] + [NextPush(s, i, VOTE_ACK)]
  {
    hide Drained, Stable;
    var v := Voted(s);
    var nacked := Drained(v, NACK_DUE, VOTE_NACK, NACK_PENDING, ok);
    DrainedAt(v, NACK_DUE, VOTE_NACK, NACK_PENDING, ok, i);
    DrainedElsewhere(v, NACK_DUE, VOTE_NACK, NACK_PENDING, ok);
    DrainedAt(nacked, ACK_DUE, VOTE_ACK, ACK_PENDING, ok, i);
    DrainedElsewhere(nacked, ACK_DUE, VOTE_ACK, ACK_PENDING, ok);
    assert Due(v, i, v.st[i]) && Due(nacked, i, nacked.st[i]);
  }

  lemma RecomputedElsewhere(s: State, ok: set<nat>)
    requires Shape(s) && Stable(s.ff.clients)
    ensures var q, r := Chosen(s.ff), Recomputed(s, ok);
            && r.ff == s.ff.(quorate := q) && r.algo == s.algo && r.decisions == s.decisions + [q]
            && r.last == s.last && r.phase <= 2 && r.decided
            && (r.phase == 1 ==>
                  exists i :: 0 <= i < MAX_CLIENTS && Used(s, i) && i in ok && s.ff.clients[i].nodeId !in q)
            && (r.phase == 2 ==> exists i :: 0 <= i < MAX_CLIENTS && Used(s, i))
  {
    hide Drained, Stable;
    var v := Voted(s);
    var nacked := Drained(v, NACK_DUE, VOTE_NACK, NACK_PENDING, ok);
    DrainedElsewhere(v, NACK_DUE, VOTE_NACK, NACK_PENDING, ok);
    DrainedElsewhere(nacked, ACK_DUE, VOTE_ACK, ACK_PENDING, ok);
    if Sends(v, NACK_DUE, ok) {
      var i :| 0 <= i < MAX_CLIENTS && Due(v, i, NACK_DUE) && i in ok;
      assert Used(s, i) && s.ff.clients[i].nodeId !in Chosen(s.ff);
    } else if Sends(nacked, ACK_DUE, ok) {
      var i :| 0 <= i < MAX_CLIENTS && Due(nacked, i, ACK_DUE) && i in ok;
      assert Used(s, i);
    }
  }

  /** `r` has at most the clients of `s`, the same as far as pushing is concerned. */
  predicate Narrows(s: State, r: State)
    requires Shape(s) && Shape(r)
  {
    && r.algo == s.algo && r.phase == s.phase && r.decisions == s.decisions && r.ff.quorate == s.ff.quorate
    && forall i :: 0 <= i < MAX_CLIENTS && Used(r, i) ==>
         Used(s, i) && r.ff.clients[i].nodeId == s.ff.clients[i].nodeId
         && r.st[i] == s.st[i] && r.sn[i] == s.sn[i] && r.logs[i] == s.logs[i]
  }

  lemma NarrowingKeeps(s: State, r: State)
    requires Inv(s) && Shape(r) && Narrows(s, r)
    ensures Inv(r)
  {
    if s.algo == ALGO_FFSPLIT {
      forall i | 0 <= i < MAX_CLIENTS && Used(r, i)
        ensures SlotOk(r, i)
      {
        assert SlotOk(s, i);
      }
      var p: Ids :| DecidedSet(s, p) && HoldersWithin(s, p);
      assert forall i :: Holder(r, i) ==> Holder(s, i);
      assert DecidedSet(r, p) && HoldersWithin(r, p);
    }
  }

  /** From any state that keeps the invariant, a recompute that gets a due NACK out keeps it. */
  lemma RecomputedKeeps(s: State, ok: set<nat>)
    requires Inv(s) && s.algo == ALGO_FFSPLIT && NacksGetThrough(s, Recomputed(s, ok))
    ensures Inv(Recomputed(s, ok))
  {
    if Stable(s.ff.clients) {
      hide Recomputed, Stable;
      var q, r := Chosen(s.ff), Recomputed(s, ok);
      RecomputedElsewhere(s, ok);
      forall i | 0 <= i < MAX_CLIENTS && Used(r, i)
        ensures Used(s, i) && SlotOk(r, i)
      {
        assert Used(s, i);
        RecomputedAt(s, ok, i);
        PushRecorded(s.logs[i], NextPush(s, i, VOTE_NACK));
        PushRecorded(s.logs[i], NextPush(s, i, VOTE_ACK));
      }
      RecomputedExclusive(s, ok);
    } else {
      NarrowingKeeps(s, Recomputed(s, ok));
    }
  }

  lemma RecomputedExclusive(s: State, ok: set<nat>)
    requires Inv(s) && s.algo == ALGO_FFSPLIT && Stable(s.ff.clients) && NacksGetThrough(s, Recomputed(s, ok))
    ensures Exclusive(Recomputed(s, ok))
  {
    hide Recomputed, Stable;
    var q, r := Chosen(s.ff), Recomputed(s, ok);
    RecomputedElsewhere(s, ok);
    var p: Ids :| DecidedSet(s, p) && HoldersWithin(s, p);
    var within: Ids := if r.phase == 1 then p else q;
    assert DecidedSet(r, within) by {
      assert q == r.decisions[|s.decisions|];
    }
    forall i | 0 <= i < MAX_CLIENTS && Holder(r, i)
      ensures r.ff.clients[i].nodeId in within
    {
      RecomputedAt(s, ok, i);
      PushRecorded(s.logs[i], NextPush(s, i, VOTE_NACK));
      if r.phase == 1 { assert Holder(s, i); }
    }
  }

  // ---------- Replies ----------

  lemma AcksReleasedKeeps(s: State, ok: set<nat>)
    requires Shape(s) && DecidedSet(s, s.ff.quorate) && s.algo == ALGO_FFSPLIT
    requires s.phase == 1 && SlotsOk(s) && !AnyIn(s, NACK_DUE, NACK_PENDING)
    ensures Inv(AcksReleased(s, ok))
  {
    hide Drained;
    var r := AcksReleased(s, ok);
    DrainedElsewhere(s, ACK_DUE, VOTE_ACK, ACK_PENDING, ok);
    forall i | 0 <= i < MAX_CLIENTS && Used(r, i)
      ensures SlotOk(r, i)
    {
      assert SlotOk(s, i) && !Due(s, i, NACK_DUE) && !Due(s, i, NACK_PENDING);
      DrainedAt(s, ACK_DUE, VOTE_ACK, ACK_PENDING, ok, i);
      PushRecorded(s.logs[i], NextPush(s, i, VOTE_ACK));
      if Due(s, i, ACK_DUE) && i in ok { assert Sends(s, ACK_DUE, ok); }
    }
    assert HoldersWithin(r, r.ff.quorate);
  }

  lemma NotedKeeps(s: State, i: nat, n: nat)
    requires Inv(s) && i < MAX_CLIENTS
    ensures Inv(Noted(s, i, n))
  {
    var r := Noted(s, i, n);
    ReplyRecorded(s.logs[i], n);
    forall j | 0 <= j < MAX_CLIENTS && Used(r, j)
      ensures s.algo == ALGO_FFSPLIT ==> SlotOk(r, j)
    {
      assert Used(s, j);
    }
    if s.algo == ALGO_FFSPLIT {
      var p: Ids :| DecidedSet(s, p) && HoldersWithin(s, p);
      assert forall j :: Holder(r, j) ==> Holder(s, j);
      assert DecidedSet(r, p) && HoldersWithin(r, p);
    }
    if s.algo == 0 { assert forall j :: Used(r, j) ==> Used(s, j); }
    if s.algo == ALGO_LMS { assert forall j :: Used(r, j) ==> Used(s, j); }
  }

  /** A reply, stale or matching, from any slot keeps the invariant. */
  lemma AnsweredKeeps(s: State, i: nat, n: nat, ok: set<nat>)
    requires Inv(s) && s.algo == ALGO_FFSPLIT && i < MAX_CLIENTS && Used(s, i)
    ensures Inv(Answered(s, i, n, ok))
  {
    NotedKeeps(s, i, n);
    if Matches(s, i, n) {
      var m := Noted(s, i, n);
      var r := m.(st := s.st[i := NONE]);
      ReplyRecorded(s.logs[i], n);
      assert SlotOk(s, i);
      forall j | 0 <= j < MAX_CLIENTS && Used(r, j)
        ensures SlotOk(r, j)
      {
        assert Used(m, j);
      }
      assert Exclusive(r) by {
        var p: Ids :| DecidedSet(m, p) && HoldersWithin(m, p);
        assert forall j :: Holder(r, j) ==> Holder(m, j);
        assert DecidedSet(r, p) && HoldersWithin(r, p);
      }
      if r.phase == 1 && !AnyIn(r, NACK_DUE, NACK_PENDING) {
        AcksReleasedKeeps(r, ok);
      } else if r.phase == 2 && !AnyIn(r, ACK_DUE, ACK_PENDING) {
        AllAcksConfirmed(r);
      }
    }
  }

  lemma AllAcksConfirmed(s: State)
    requires Inv(s) && s.algo == ALGO_FFSPLIT && s.phase == 2 && !AnyIn(s, ACK_DUE, ACK_PENDING)
    ensures Inv(s.(phase := 0))
  {
    var r := s.(phase := 0);
    forall j | 0 <= j < MAX_CLIENTS && Used(r, j)
      ensures SlotOk(r, j)
    {
      assert SlotOk(s, j) && !Due(s, j, ACK_DUE) && !Due(s, j, ACK_PENDING);
    }
    assert DecidedSet(r, r.ff.quorate) && HoldersWithin(r, r.ff.quorate);
  }

  // ---------- Joining and leaving ----------

  /** A refused node, still connected, that may hold an ACK and has its NACK to confirm. */
  predicate Unconfirmed(s: State, id: u32)
    requires Shape(s)
  {
    var i := SlotOf(s.ff.clients, id);
    s.phase == 1 && i >= 0 && MayHold(s.logs[i]) && !Selects(s, i)
  }

  /** A new node joins with an empty ledger, a connected one keeps its own. */
  lemma JoinedKeeps(s: State, id: u32, tbMode: u8, tbNode: u32, algo: u16)
    requires Inv(s) && !Unconfirmed(s, id)
    requires algo == ALGO_FFSPLIT || algo == ALGO_LMS
    requires s.algo == 0 || s.algo == algo
    ensures Inv(Joined(s, id, tbMode, tbNode, algo))
  {
    var i, r := SlotFor(s.ff.clients, id), Joined(s, id, tbMode, tbNode, algo);
    if i >= 0 {
      var known := SlotOf(s.ff.clients, id) >= 0;
      assert Used(s, i) <==> known;
      assert Used(r, i) && r.st[i] == NONE && r.ff.clients[i].nodeId == id;
      assert r.logs[i] == if known then s.logs[i] else [];
      forall j | 0 <= j < MAX_CLIENTS && j != i && Used(r, j)
        ensures Used(s, j) && r.st[j] == s.st[j] && r.sn[j] == s.sn[j] && r.logs[j] == s.logs[j]
                && r.ff.clients[j] == s.ff.clients[j]
      {}
      if r.algo == ALGO_FFSPLIT {
        JoinedExclusive(s, r, i);
      }
    }
  }

  lemma JoinedExclusive(s: State, r: State, i: nat)
    requires Inv(s) && Shape(r) && i < MAX_CLIENTS && r.algo == ALGO_FFSPLIT
    requires s.algo == 0 || s.algo == ALGO_FFSPLIT
    requires r.phase == s.phase && r.decisions == s.decisions && r.ff.quorate == s.ff.quorate
    requires Used(r, i) && r.st[i] == NONE && r.logs[i] == if Used(s, i) then s.logs[i] else []
    requires Used(s, i) ==> r.ff.clients[i].nodeId == s.ff.clients[i].nodeId
    requires s.phase == 1 ==> !MayHold(r.logs[i]) || Selects(r, i)
    requires forall j :: 0 <= j < MAX_CLIENTS && j != i && Used(r, j) ==>
               Used(s, j) && r.st[j] == s.st[j] && r.sn[j] == s.sn[j] && r.logs[j] == s.logs[j]
               && r.ff.clients[j] == s.ff.clients[j]
    ensures SlotsOk(r) && Exclusive(r)
  {
    forall j | 0 <= j < MAX_CLIENTS && Used(r, j)
      ensures SlotOk(r, j)
    {
      if Used(s, j) { assert SlotOk(s, j); }
    }
    var p: Ids := if s.algo == 0 then [] else NodesHolding(s);
    assert forall j :: Holder(r, j) ==> Holder(s, j);
    assert DecidedSet(r, p) && HoldersWithin(r, p);
  }

  /** A join keeps the invariant exactly when it does not wipe the push state of a refused
      node that may hold an ACK. */
  lemma JoinedExactly(s: State, id: u32, tbMode: u8, tbNode: u32, algo: u16)
    requires Inv(s)
    requires algo == ALGO_FFSPLIT || algo == ALGO_LMS
    requires s.algo == 0 || s.algo == algo
    ensures Inv(Joined(s, id, tbMode, tbNode, algo)) <==> !Unconfirmed(s, id)
  {
    var i, r := SlotFor(s.ff.clients, id), Joined(s, id, tbMode, tbNode, algo);
    if Unconfirmed(s, id) {
      assert Used(r, i) && r.st[i] == NONE && r.logs[i] == s.logs[i] && r.phase == 1;
      assert !SlotOk(r, i);
    } else {
      JoinedKeeps(s, id, tbMode, tbNode, algo);
    }
  }

  ghost function NodesHolding(s: State): (q: Ids)
    requires Shape(s) && Exclusive(s)
    ensures DecidedSet(s, q) && HoldersWithin(s, q)
  {
    var q: Ids :| DecidedSet(s, q) && HoldersWithin(s, q);
    q
  }

  lemma ForgottenKeeps(s: State)
    requires Inv(s)
    ensures Inv(Forgotten(s))
  {
    if Empty(s) {
      var r := Forgotten(s);
      assert forall i :: Used(r, i) ==> Used(s, i);
    }
  }

  /** A waiter refresh touches saved votes, push numbers and the record only. */
  lemma {:induction false} RefreshFrame(s: State, exclude: int, from: nat, ok: set<nat>)
    requires Shape(s) && from <= MAX_CLIENTS
    ensures var r := RefreshedFrom(s, exclude, from, ok);
            r == s.(last := r.last, sn := r.sn, logs := r.logs)
    decreases MAX_CLIENTS - from
  {
    if from < MAX_CLIENTS {
      var next := if Lms.Waits(s.ff.clients, exclude, s.last, from) then Rerun(s, from, ok) else s;
      RefreshFrame(next, exclude, from + 1, ok);
    }
  }

  lemma RefreshedKeeps(s: State, exclude: int, ok: set<nat>)
    requires Inv(s) && s.algo == ALGO_LMS
    ensures Inv(Refreshed(s, exclude, ok))
  {
    RefreshFrame(s, exclude, 0, ok);
    var r := Refreshed(s, exclude, ok);
    assert forall i :: Used(r, i) <==> Used(s, i);
  }

  lemma LeftKeeps(s: State, i: nat, ok: set<nat>)
    requires Inv(s) && i < MAX_CLIENTS && NacksGetThrough(s, Left(s, i, ok))
    ensures Inv(Left(s, i, ok))
  {
    var v := Vacated(s, i);
    assert forall j :: Used(v, j) ==> Used(s, j);
    NarrowingKeeps(s, v);
    if s.algo == ALGO_FFSPLIT {
      var d := Recomputed(v, ok);
      assert NacksGetThrough(v, d);
      RecomputedKeeps(v, ok);
      ForgottenKeeps(d);
    } else if s.algo == ALGO_LMS {
      RefreshedKeeps(v, -1, ok);
      ForgottenKeeps(Refreshed(v, -1, ok));
    } else {
      ForgottenKeeps(v);
    }
  }
}
