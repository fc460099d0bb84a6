/** Vote pushing and the shared cluster state (firmware/qdevice/server.c): per-slot push
    states, the global phase, sequence matching, recompute, waiter refresh, joining and
    leaving. One method call is one turn under the mutex. */
module Push {
  import opened Defs
  import opened FFSplit
  import Lms

  // Push states of a slot.
  const NONE: u8 := 0
  const NACK_DUE: u8 := 1
  const ACK_DUE: u8 := 2
  const NACK_PENDING: u8 := 3
  const ACK_PENDING: u8 := 4

  /** What went over the connection of a slot: votes its transport took, replies it sent. */
  datatype Note = Pushed(vote: u8, n: nat, ringNode: u32, ringSeq: u64) | Replied(n: nat)

  /** The globals of the server. `logs` and `decisions` are the ghost record of a run:
      the traffic of the node on each slot since it joined, and every selection decided. */
  datatype State = State(
    ff: Cluster, algo: u16, decided: bool, phase: u8,
    st: seq<u8>, sn: seq<nat>, last: seq<u8>,
    logs: seq<seq<Note>>, decisions: seq<Ids>)

  predicate Shape(s: State) {
    |s.ff.clients| == |s.st| == |s.sn| == |s.last| == |s.logs| == MAX_CLIENTS
  }

  /** No clients, nothing decided, nothing pushed. */
  function Start(): (s: State)
    ensures Shape(s)
  {
    State(Cluster(seq(MAX_CLIENTS, _ => EMPTY_SLOT), []), 0, false, 0,
          seq(MAX_CLIENTS, _ => NONE), seq(MAX_CLIENTS, _ => 0), seq(MAX_CLIENTS, _ => Lms.LMS_NEW),
          seq(MAX_CLIENTS, _ => []), [])
  }

  // ---------- Specification: pushing ----------

  predicate Used(s: State, i: int)
    requires Shape(s)
  {
    0 <= i < MAX_CLIENTS && s.ff.clients[i].used
  }

  predicate Due(s: State, i: int, due: u8)
    requires Shape(s)
  {
    Used(s, i) && s.st[i] == due
  }

  function NextPush(s: State, i: nat, vote: u8): Note
    requires Shape(s) && i < MAX_CLIENTS
  {
    Pushed(vote, s.sn[i] + 1, s.ff.clients[i].ringNode, s.ff.clients[i].ringSeq)
  }

  /** One push to slot `i`; only the transports in `ok` take it, the number is used up anyway. */
  function PushOne(s: State, i: nat, vote: u8, ok: set<nat>): (r: State)
    requires Shape(s) && i < MAX_CLIENTS
    ensures Shape(r)
  {
    s.(sn := s.sn[i := s.sn[i] + 1],
       logs := if i in ok then s.logs[i := s.logs[i] + [NextPush(s, i, vote)]] else s.logs)
  }

  /** Every slot in state `due` is pushed `vote`; those that take it move to `pending`. */
  function Drained(s: State, due: u8, vote: u8, pending: u8, ok: set<nat>): (r: State)
    requires Shape(s)
    ensures Shape(r)
  {
    s.(st := seq(MAX_CLIENTS, i requires 0 <= i < MAX_CLIENTS =>
         if Due(s, i, due) && i in ok then pending else s.st[i]),
       sn := seq(MAX_CLIENTS, i requires 0 <= i < MAX_CLIENTS => if Due(s, i, due) then s.sn[i] + 1 else s.sn[i]),
       logs := seq(MAX_CLIENTS, i requires 0 <= i < MAX_CLIENTS =>
         if Due(s, i, due) && i in ok then s.logs[i] + [NextPush(s, i, vote)] else s.logs[i]))
  }

  lemma DrainedAt(s: State, due: u8, vote: u8, pending: u8, ok: set<nat>, i: nat)
    requires Shape(s) && i < MAX_CLIENTS
    ensures var r := Drained(s, due, vote, pending, ok);
            if !Due(s, i, due) then r.st[i] == s.st[i] && r.sn[i] == s.sn[i] && r.logs[i] == s.logs[i]
            else && r.sn[i] == s.sn[i] + 1
                 && (i in ok ==> r.st[i] == pending && r.logs[i] == s.logs[i] + [NextPush(s, i, vote)])
                 && (i !in ok ==> r.st[i] == due && r.logs[i] == s.logs[i])
  {}

  lemma DrainedElsewhere(s: State, due: u8, vote: u8, pending: u8, ok: set<nat>)
    requires Shape(s)
    ensures var r := Drained(s, due, vote, pending, ok);
            r == s.(st := r.st, sn := r.sn, logs := r.logs)
  {}

  predicate Sends(s: State, due: u8, ok: set<nat>)
    requires Shape(s)
  {
    exists i :: 0 <= i < MAX_CLIENTS && Due(s, i, due) && i in ok
  }

  predicate AnyIn(s: State, a: u8, b: u8)
    requires Shape(s)
  {
    exists i :: 0 <= i < MAX_CLIENTS && (Due(s, i, a) || Due(s, i, b))
  }

  function DueAfter(quorate: seq<u32>, cl: Client, st: u8): u8 {
    if !cl.used then st else if cl.nodeId in quorate then ACK_DUE else NACK_DUE
  }

  function DueStates(s: State, quorate: seq<u32>): (r: seq<u8>)
    requires Shape(s)
    ensures |r| == MAX_CLIENTS
    ensures forall i :: 0 <= i < MAX_CLIENTS ==> r[i] == DueAfter(quorate, s.ff.clients[i], s.st[i])
  {
    seq(MAX_CLIENTS, i requires 0 <= i < MAX_CLIENTS => DueAfter(quorate, s.ff.clients[i], s.st[i]))
  }

  /** The decision stored and every connected slot made due for its vote. */
  ghost function Voted(s: State): (r: State)
    requires Shape(s)
    ensures Shape(r)
  {
    var q := Chosen(s.ff);
    s.(ff := s.ff.(quorate := q), decided := true, decisions := s.decisions + [q],
       st := DueStates(s, q))
  }

  /** NACKs go out first; ACKs only when no NACK was sent. */
  function Released(s: State, ok: set<nat>): (r: State)
    requires Shape(s)
    ensures Shape(r)
  {
    var nacked := Drained(s, NACK_DUE, VOTE_NACK, NACK_PENDING, ok);
    if Sends(s, NACK_DUE, ok) then nacked.(phase := 1) else AcksReleased(nacked, ok)
  }

  function AcksReleased(s: State, ok: set<nat>): (r: State)
    requires Shape(s)
    ensures Shape(r)
  {
    Drained(s, ACK_DUE, VOTE_ACK, ACK_PENDING, ok).(phase := if Sends(s, ACK_DUE, ok) then 2 else 0)
  }

  ghost function Recomputed(s: State, ok: set<nat>): (r: State)
    requires Shape(s)
    ensures Shape(r)
  {
    if Stable(s.ff.clients) then Released(Voted(s), ok) else s.(decided := false)
  }

  /** The reply is the one slot `i` is waiting for. */
  predicate Matches(s: State, i: nat, n: nat)
    requires Shape(s) && i < MAX_CLIENTS
  {
    s.sn[i] == n && (s.st[i] == NACK_PENDING || s.st[i] == ACK_PENDING)
  }

  function Noted(s: State, i: nat, n: nat): (r: State)
    requires Shape(s) && i < MAX_CLIENTS
    ensures Shape(r)
  {
    s.(logs := s.logs[i := s.logs[i] + [Replied(n)]])
  }

  /** VOTE_INFO_REPLY number `n` from slot `i`: the last NACK confirmed releases the ACKs. */
  function Answered(s: State, i: nat, n: nat, ok: set<nat>): (r: State)
    requires Shape(s) && i < MAX_CLIENTS
    ensures Shape(r)
  {
    if !Matches(s, i, n) then Noted(s, i, n)
    else
      var r := Noted(s, i, n).(st := s.st[i := NONE]);
      if r.phase == 1 && !AnyIn(r, NACK_DUE, NACK_PENDING) then AcksReleased(r, ok)
      else if r.phase == 2 && !AnyIn(r, ACK_DUE, ACK_PENDING) then r.(phase := 0)
      else r
  }

  // ---------- Specification: refresh, join, leave ----------

  /** `lms_refresh_others` from slot `from` on. */
  ghost function RefreshedFrom(s: State, exclude: int, from: nat, ok: set<nat>): (r: State)
    requires Shape(s) && from <= MAX_CLIENTS
    ensures Shape(r)
    decreases MAX_CLIENTS - from
  {
    if from == MAX_CLIENTS then s
    else RefreshedFrom(if Lms.Waits(s.ff.clients, exclude, s.last, from) then Rerun(s, from, ok) else s,
                       exclude, from + 1, ok)
  }

  ghost function Rerun(s: State, i: nat, ok: set<nat>): (r: State)
    requires Shape(s) && i < MAX_CLIENTS
    ensures Shape(r)
  {
    var v := Lms.Vote(s.ff.clients, i, s.last);
    var saved := s.(last := Lms.Saved(s.ff.clients, i, s.last));
    if v == VOTE_ACK || v == VOTE_NACK then PushOne(saved, i, v, ok) else saved
  }

  ghost function Refreshed(s: State, exclude: int, ok: set<nat>): (r: State)
    requires Shape(s)
    ensures Shape(r)
  {
    if s.algo == ALGO_LMS then RefreshedFrom(s, exclude, 0, ok) else s
  }

  /** The slot part of an accepted INIT. A node that is already connected keeps its log:
      it has not left. */
  function Joined(s: State, id: u32, tbMode: u8, tbNode: u32, algo: u16): (r: State)
    requires Shape(s)
    ensures Shape(r)
  {
    var i := SlotFor(s.ff.clients, id);
    if i < 0 then s
    else
      var t := WithSlot(s.ff.clients, id);
      var log := if SlotOf(s.ff.clients, id) >= 0 then s.logs[i] else [];
      s.(ff := s.ff.(clients := t[i := t[i].(tbMode := tbMode, tbNode := tbNode, heur := HEUR_UNDEFINED)]),
         st := s.st[i := NONE], sn := s.sn[i := 0], last := s.last[i := Lms.LMS_NEW],
         logs := s.logs[i := log], algo := if s.algo == 0 then algo else s.algo)
  }

  predicate Empty(s: State)
    requires Shape(s)
  {
    forall i :: 0 <= i < MAX_CLIENTS ==> !Used(s, i)
  }

  function Vacated(s: State, i: nat): (r: State)
    requires Shape(s) && i < MAX_CLIENTS
    ensures Shape(r)
  {
    s.(ff := s.ff.(clients := WithoutSlot(s.ff.clients, i)), last := s.last[i := Lms.LMS_NEW])
  }

  /** Once the last client is gone the next cluster starts fresh. */
  function Forgotten(s: State): (r: State)
    requires Shape(s)
    ensures Shape(r)
  {
    if Empty(s) then s.(algo := 0, ff := s.ff.(quorate := []), decided := false, phase := 0) else s
  }

  ghost function Left(s: State, i: nat, ok: set<nat>): (r: State)
    requires Shape(s) && i < MAX_CLIENTS
    ensures Shape(r)
  {
    var v := Vacated(s, i);
    Forgotten(if s.algo == ALGO_FFSPLIT then Recomputed(v, ok)
              else if s.algo == ALGO_LMS then Refreshed(v, -1, ok)
              else v)
  }

  // ---------- The code ----------

  class Server {
    const table: Table
    const st: array<u8>
    const sn: array<nat>
    const last: array<u8>
    var algo: u16
    var decided: bool
    var phase: u8
    ghost var logs: seq<seq<Note>>
    ghost var decisions: seq<Ids>

    ghost predicate Valid() reads this {
      && table.Valid() && st != last
      && st.Length == sn.Length == last.Length == |logs| == MAX_CLIENTS
    }

    ghost function View(): (s: State)
      requires Valid()
      reads this, table, table.clients, st, sn, last
      ensures Shape(s)
    {
      State(table.View(), algo, decided, phase, st[..], sn[..], last[..], logs, decisions)
    }

    constructor ()
      ensures Valid() && View() == Start()
      ensures fresh(table) && fresh(table.clients) && fresh(st) && fresh(sn) && fresh(last)
    {
      table := new Table();
      st := new u8[MAX_CLIENTS](_ => NONE);
      sn := new nat[MAX_CLIENTS](_ => 0);
      last := new u8[MAX_CLIENTS](_ => Lms.LMS_NEW);
      algo, decided, phase := 0, false, 0;
      logs := seq(MAX_CLIENTS, _ => []);
      decisions := [];
      new;
      assert st[..] == Start().st && sn[..] == Start().sn && last[..] == Start().last;
    }

    /** Push one vote to a slot; the transports in `ok` take it. */
    method PushVote(slot: nat, vote: u8, ok: set<nat>) returns (sent: bool)
      requires Valid() && slot < MAX_CLIENTS
      modifies this`logs, sn
      ensures Valid() && View() == PushOne(old(View()), slot, vote, ok)
      ensures sent == (slot in ok)
    {
      ghost var push := NextPush(View(), slot, vote);
      sn[slot] := sn[slot] + 1;
      if slot !in ok {
        return false;
      }
      logs := logs[slot := logs[slot] + [push]];
      return true;
    }

    method DrainNacks(ok: set<nat>) returns (sent: nat)
      requires Valid()
      modifies this`logs, sn, st
      ensures Valid() && View() == Drained(old(View()), NACK_DUE, VOTE_NACK, NACK_PENDING, ok)
      ensures sent > 0 <==> Sends(old(View()), NACK_DUE, ok)
    {
      sent := Drain(NACK_DUE, VOTE_NACK, NACK_PENDING, ok);
    }

    method DrainAcks(ok: set<nat>) returns (sent: nat)
      requires Valid()
      modifies this`logs, sn, st
      ensures Valid() && View() == Drained(old(View()), ACK_DUE, VOTE_ACK, ACK_PENDING, ok)
      ensures sent > 0 <==> Sends(old(View()), ACK_DUE, ok)
    {
      sent := Drain(ACK_DUE, VOTE_ACK, ACK_PENDING, ok);
    }

    /** The loop both drains share. */
    method Drain(due: u8, vote: u8, pending: u8, ok: set<nat>) returns (sent: nat)
      requires Valid() && due != pending
      modifies this`logs, sn, st
      ensures Valid() && View() == Drained(old(View()), due, vote, pending, ok)
      ensures sent > 0 <==> Sends(old(View()), due, ok)
    {
      hide Drained;
      ghost var s := View();
      ghost var goal := Drained(s, due, vote, pending, ok);
      sent := 0;
      var i := 0;
      while i < MAX_CLIENTS
        invariant 0 <= i <= MAX_CLIENTS && Valid()
        invariant View() == s.(st := st[..], sn := sn[..], logs := logs)
        invariant forall k :: 0 <= k < i ==> st[k] == goal.st[k] && sn[k] == goal.sn[k] && logs[k] == goal.logs[k]
        invariant forall k :: i <= k < MAX_CLIENTS ==> st[k] == s.st[k] && sn[k] == s.sn[k] && logs[k] == s.logs[k]
        invariant sent > 0 <==> exists k :: 0 <= k < i && Due(s, k, due) && k in ok
      {
        DrainedAt(s, due, vote, pending, ok, i);
        if table.clients[i].used && st[i] == due {
          assert Due(s, i, due);
          var pushed := PushVote(i, vote, ok);
          if pushed {
            st[i] := pending;
            sent := sent + 1;
          }
        }
        i := i + 1;
      }
      assert st[..] == goal.st && sn[..] == goal.sn && logs == goal.logs;
      DrainedElsewhere(s, due, vote, pending, ok);
    }

    method AnyState(a: u8, b: u8) returns (any: bool)
      requires Valid()
      ensures any == AnyIn(View(), a, b)
    {
      var i := 0;
      while i < MAX_CLIENTS
        invariant 0 <= i <= MAX_CLIENTS
        invariant forall k :: 0 <= k < i ==> !Due(View(), k, a) && !Due(View(), k, b)
      {
        if table.clients[i].used && (st[i] == a || st[i] == b) {
          assert Due(View(), i, a) || Due(View(), i, b);
          return true;
        }
        i := i + 1;
      }
      return false;
    }

    /** Turn the votes of a decision into due pushes. */
    method MarkDue(votes: array<u8>)
      requires Valid() && votes != st && votes.Length == MAX_CLIENTS
      requires forall k :: 0 <= k < MAX_CLIENTS && table.clients[k].used ==>
                 votes[k] == VoteFor(table.quorate, table.clients[k].nodeId)
      modifies st
      ensures Valid() && View() == old(View()).(st := DueStates(old(View()), table.quorate))
    {
      ghost var s := View();
      var i := 0;
      while i < MAX_CLIENTS
        invariant 0 <= i <= MAX_CLIENTS && Valid()
        invariant View() == s.(st := st[..])
        invariant forall k :: 0 <= k < i ==> st[k] == DueAfter(s.ff.quorate, s.ff.clients[k], s.st[k])
        invariant forall k :: i <= k < MAX_CLIENTS ==> st[k] == s.st[k]
      {
        if table.clients[i].used {
          st[i] := if votes[i] == VOTE_ACK then ACK_DUE else NACK_DUE;
        }
        i := i + 1;
      }
      assert st[..] == DueStates(s, s.ff.quorate);
    }

    method Recompute(ok: set<nat>)
      requires Valid()
      modifies this`decided, this`phase, this`logs, this`decisions, table`quorate, st, sn
      ensures Valid() && View() == Recomputed(old(View()), ok)
    {
      hide Drained, DueStates, Stable;
      var votes := new u8[MAX_CLIENTS](_ => VOTE_NO_CHANGE);
      var stable := table.Decide(votes);
      if !stable {
        decided := false;
        return;
      }
      decided := true;
      decisions := decisions + [table.quorate];
      forall k | 0 <= k < MAX_CLIENTS && table.clients[k].used
        ensures votes[k] == VoteFor(table.quorate, table.clients[k].nodeId)
      {
        assert votes[..][k] == votes[k];
      }
      MarkDue(votes);
      assert View() == Voted(old(View()));
      var nacks := DrainNacks(ok);
      if nacks > 0 {
        phase := 1;
        return;
      }
      ReleaseAcks(ok);
    }

    /** Send the due ACKs and set the phase accordingly. */
    method ReleaseAcks(ok: set<nat>)
      requires Valid()
      modifies this`phase, this`logs, sn, st
      ensures Valid() && View() == AcksReleased(old(View()), ok)
    {
      var acks := DrainAcks(ok);
      phase := if acks > 0 then 2 else 0;
    }

    method OnVoteInfoReply(slot: nat, n: nat, ok: set<nat>)
      requires Valid() && slot < MAX_CLIENTS
      modifies this`phase, this`logs, sn, st
      ensures Valid() && View() == Answered(old(View()), slot, n, ok)
    {
      logs := logs[slot := logs[slot] + [Replied(n)]];
      if sn[slot] != n || (st[slot] != NACK_PENDING && st[slot] != ACK_PENDING) {
        return;
      }
      st[slot] := NONE;
      if phase == 1 {
        var nacksLeft := AnyState(NACK_DUE, NACK_PENDING);
        if !nacksLeft {
          ReleaseAcks(ok);
        }
      } else if phase == 2 {
        var acksLeft := AnyState(ACK_DUE, ACK_PENDING);
        if !acksLeft {
          phase := 0;
        }
      }
    }

    method LmsRefreshOthers(exclude: int, ok: set<nat>)
      requires Valid()
      modifies this`logs, sn, last
      ensures Valid() && View() == Refreshed(old(View()), exclude, ok)
    {
      hide Lms.Vote, Lms.Saved;
      if algo != ALGO_LMS {
        return;
      }
      ghost var s := View();
      var i := 0;
      while i < MAX_CLIENTS
        invariant 0 <= i <= MAX_CLIENTS && Valid() && algo == ALGO_LMS
        invariant RefreshedFrom(s, exclude, 0, ok) == RefreshedFrom(View(), exclude, i, ok)
      {
        if table.clients[i].used && i != exclude && last[i] == VOTE_WAIT_FOR_REPLY {
          var v := Lms.Decide(table, i, last);
          if v == VOTE_ACK || v == VOTE_NACK {
            var _ := PushVote(i, v, ok);
          }
        }
        i := i + 1;
      }
    }

    /** The slot part of an accepted INIT; -1 when the table is full. */
    method Join(id: u32, tbMode: u8, tbNode: u32, algorithm: u16) returns (slot: int)
      requires Valid()
      modifies this`algo, this`logs, table.clients, st, sn, last
      ensures Valid() && View() == Joined(old(View()), id, tbMode, tbNode, algorithm)
      ensures slot == SlotFor(old(View()).ff.clients, id)
    {
      ghost var known := SlotOf(table.clients[..], id) >= 0;
      slot := table.Slot(id);
      if slot < 0 {
        return;
      }
      table.clients[slot] := table.clients[slot].(tbMode := tbMode, tbNode := tbNode, heur := HEUR_UNDEFINED);
      st[slot] := NONE;
      sn[slot] := 0;
      last[slot] := Lms.LMS_NEW;
      logs := logs[slot := if known then logs[slot] else []];
      if algo == 0 {
        algo := algorithm;
      }
    }

    /** The client on `slot` left: remove it first, then decide without it. */
    method Leave(slot: nat, ok: set<nat>)
      requires Valid() && slot < MAX_CLIENTS
      modifies this, table, table.clients, st, sn, last
      ensures Valid() && View() == Left(old(View()), slot, ok)
    {
      table.Remove(slot);
      last[slot] := Lms.LMS_NEW;
      if algo == ALGO_FFSPLIT {
        Recompute(ok);
      } else if algo == ALGO_LMS {
        LmsRefreshOthers(-1, ok);
      }
      Forget();
    }

    /** Drop the cluster state when no slot is connected any more. */
    method Forget()
      requires Valid()
      modifies this`algo, this`decided, this`phase, table`quorate
      ensures Valid() && View() == Forgotten(old(View()))
    {
      var k := 0;
      while k < MAX_CLIENTS && !table.clients[k].used
        invariant 0 <= k <= MAX_CLIENTS
        invariant forall j :: 0 <= j < k ==> !Used(View(), j)
      {
        k := k + 1;
      }
      if k < MAX_CLIENTS {
        assert Used(View(), k);
        return;
      }
      assert Empty(View());
      algo := 0;
      table.quorate := [];
      decided := false;
      phase := 0;
    }
  }
}
