/** LMS ("last man standing") decision core (firmware/quorum/lms.c): grouping the
    connected clients by ring, and the tiered decision with its newcomer rule. */
module Lms {
  import opened Defs
  import opened FFSplit

  const LMS_NEW: u8 := 0

  datatype Part = Part(ringNode: u32, ringSeq: u64, count: int, score: int)

  // ---------- Specification: grouping by ring ----------

  predicate Initialised(cl: Client) {
    cl.used && cl.ringSeq != 0
  }

  predicate OnRing(p: Part, cl: Client) {
    p.ringNode == cl.ringNode && p.ringSeq == cl.ringSeq
  }

  function Points(h: u8): int {
    if h == HEUR_PASS then 1 else if h == HEUR_FAIL then -1 else 0
  }

  /** First group at or after `from` on the ring of `cl`, or -1. */
  function GroupFrom(parts: seq<Part>, cl: Client, from: nat): (r: int)
    requires from <= |parts|
    ensures r == -1 || from <= r < |parts|
    ensures r >= 0 ==> OnRing(parts[r], cl) && forall k :: from <= k < r ==> !OnRing(parts[k], cl)
    ensures r < 0 ==> forall k :: from <= k < |parts| ==> !OnRing(parts[k], cl)
    decreases |parts| - from
  {
    if from == |parts| then -1
    else if OnRing(parts[from], cl) then from
    else GroupFrom(parts, cl, from + 1)
  }

  function AddClient(parts: seq<Part>, cl: Client): seq<Part> {
    var p := GroupFrom(parts, cl, 0);
    if p < 0 then parts + [Part(cl.ringNode, cl.ringSeq, 1, 1 + Points(cl.heur))]
    else parts[p := parts[p].(count := parts[p].count + 1, score := parts[p].score + 1 + Points(cl.heur))]
  }

  /** The groups after the first `k` slots. */
  function PartsUpTo(t: seq<Client>, k: nat): (r: seq<Part>)
    requires k <= |t|
    ensures |r| <= k
  {
    if k == 0 then []
    else
      var parts := PartsUpTo(t, k - 1);
      if Initialised(t[k - 1]) then AddClient(parts, t[k - 1]) else parts
  }

  function PartsOf(t: seq<Client>): seq<Part> {
    PartsUpTo(t, |t|)
  }

  lemma {:induction false} PartsGrow(t: seq<Client>, k: nat, n: nat)
    requires k <= n <= |t|
    ensures |PartsUpTo(t, k)| <= |PartsUpTo(t, n)|
  {
    if k < n {
      PartsGrow(t, k, n - 1);
    }
  }

  predicate SomeUsed(t: seq<Client>) {
    exists k :: 0 <= k < |t| && t[k].used
  }

  lemma {:induction false} GroupsNeedClients(t: seq<Client>, k: nat)
    requires k <= |t|
    ensures PartsUpTo(t, k) != [] ==> SomeUsed(t)
  {
    if k > 0 && !Initialised(t[k - 1]) {
      GroupsNeedClients(t, k - 1);
    }
  }

  // ---------- Specification: the decision ----------

  predicate RingsMatch(t: seq<Client>, idx: nat)
    requires idx < |t|
  {
    forall j :: 0 <= j < |t| && j != idx && t[j].used && SamePartition(t[idx], t[j]) ==> SameRing(t[idx], t[j])
  }

  predicate SamePartition(a: Client, b: Client) {
    b.nodeId in a.memb || a.nodeId in b.memb
  }

  predicate FacesAck(t: seq<Client>, idx: nat, last: seq<u8>)
    requires idx < |t| == |last|
  {
    exists j :: 0 <= j < |t| && j != idx && t[j].used && !SameRing(t[idx], t[j]) && last[j] == VOTE_ACK
  }

  predicate UniqueMax(v: seq<int>, b: int) {
    0 <= b < |v| && forall i :: 0 <= i < |v| && i != b ==> v[i] < v[b]
  }

  /** The index of the unique maximum, or -1 when the maximum is shared. */
  ghost function Tier(v: seq<int>): (r: int)
    ensures r == -1 || UniqueMax(v, r)
    ensures r == -1 ==> forall b :: !UniqueMax(v, b)
  {
    if b :| UniqueMax(v, b) then b else -1
  }

  function Scores(parts: seq<Part>): (r: seq<int>)
    ensures |r| == |parts| && forall i :: 0 <= i < |r| ==> r[i] == parts[i].score
  {
    seq(|parts|, i requires 0 <= i < |parts| => parts[i].score)
  }

  function Counts(parts: seq<Part>): (r: seq<int>)
    ensures |r| == |parts| && forall i :: 0 <= i < |r| ==> r[i] == parts[i].count
  {
    seq(|parts|, i requires 0 <= i < |parts| => parts[i].count)
  }

  function VoteIf(b: bool): u8 {
    if b then VOTE_ACK else VOTE_NACK
  }

  /** `id` is the lowest (or highest) connected node id. */
  predicate Extreme(t: seq<Client>, mode: u8, id: u32) {
    && Online(t, id)
    && forall j :: 0 <= j < |t| && t[j].used ==>
         if mode == TB_LOWEST then id <= t[j].nodeId else id >= t[j].nodeId
  }

  predicate OnRingOf(t: seq<Client>, me: Client, id: u32) {
    me.nodeId == id || (Online(t, id) && SameRing(t[SlotOf(t, id)], me))
  }

  ghost function TieBreakVote(t: seq<Client>, me: Client): u8 {
    if me.tbMode == TB_LOWEST || me.tbMode == TB_HIGHEST then
      VoteIf(exists id: u32 :: Extreme(t, me.tbMode, id) && OnRingOf(t, me, id))
    else if me.tbMode == TB_NODE_ID then VoteIf(me.nodeId == me.tbNode)
    else VOTE_WAIT_FOR_REPLY
  }

  /** Score, then size, then tie-breaker. */
  ghost function TieredVote(t: seq<Client>, me: Client): u8 {
    var parts := PartsOf(t);
    var best, big := Tier(Scores(parts)), Tier(Counts(parts));
    if best >= 0 then VoteIf(OnRing(parts[best], me))
    else if big >= 0 then VoteIf(OnRing(parts[big], me))
    else TieBreakVote(t, me)
  }

  predicate NewcomerRefused(t: seq<Client>, idx: nat, last: seq<u8>)
    requires idx < |t| == |last|
  {
    RingsMatch(t, idx) && |PartsOf(t)| > 1 && last[idx] == LMS_NEW && FacesAck(t, idx, last)
  }

  ghost function Vote(t: seq<Client>, idx: nat, last: seq<u8>): u8
    requires idx < |t| == |last|
  {
    if !RingsMatch(t, idx) || |PartsOf(t)| == 0 then VOTE_WAIT_FOR_REPLY
    else if |PartsOf(t)| == 1 then VOTE_ACK
    else if NewcomerRefused(t, idx, last) then VOTE_NACK
    else TieredVote(t, t[idx])
  }

  /** No valid tie-breaker mode and both tiers shared: WAIT without saving it. */
  ghost predicate NoTieBreaker(t: seq<Client>, idx: nat)
    requires idx < |t|
  {
    && RingsMatch(t, idx) && |PartsOf(t)| > 1
    && Tier(Scores(PartsOf(t))) < 0 && Tier(Counts(PartsOf(t))) < 0
    && t[idx].tbMode != TB_LOWEST && t[idx].tbMode != TB_HIGHEST && t[idx].tbMode != TB_NODE_ID
  }

  /** The saved votes after a decision for `idx`. */
  ghost function Saved(t: seq<Client>, idx: nat, last: seq<u8>): (r: seq<u8>)
    requires idx < |t| == |last|
    ensures |r| == |last|
  {
    if NewcomerRefused(t, idx, last) || NoTieBreaker(t, idx) then last
    else last[idx := Vote(t, idx, last)]
  }

  // ---------- Specification: refreshing the waiters ----------

  predicate Waits(t: seq<Client>, exclude: int, last: seq<u8>, i: nat)
    requires i < |t| == |last|
  {
    t[i].used && i != exclude && last[i] == VOTE_WAIT_FOR_REPLY
  }

  // ---------- The code ----------

  method CheckRings(c: Table, idx: nat) returns (ok: bool)
    requires c.Valid() && idx < MAX_CLIENTS
    ensures ok == RingsMatch(c.clients[..], idx)
  {
    var me := c.clients[idx];
    var j := 0;
    while j < c.clients.Length
      invariant 0 <= j <= c.clients.Length
      invariant forall k :: 0 <= k < j && k != idx && c.clients[k].used && SamePartition(me, c.clients[k]) ==>
                              SameRing(me, c.clients[k])
    {
      var o := c.clients[j];
      if o.used && j != idx {
        var inPart := o.nodeId in me.memb;
        if !inPart {
          inPart := me.nodeId in o.memb;
        }
        if inPart && !(me.ringNode == o.ringNode && me.ringSeq == o.ringSeq) {
          assert c.clients[..][j] == o;
          return false;
        }
      }
      j := j + 1;
    }
    return true;
  }

  method FindGroup(parts: array<Part>, n: nat, cl: Client) returns (p: int)
    requires n <= parts.Length
    ensures p == GroupFrom(parts[..n], cl, 0)
  {
    var k := 0;
    while k < n
      invariant 0 <= k <= n
      invariant forall i :: 0 <= i < k ==> !OnRing(parts[i], cl)
    {
      if OnRing(parts[k], cl) {
        assert OnRing(parts[..n][k], cl);
        return k;
      }
      k := k + 1;
    }
    return -1;
  }

  /** Fill `parts` with the groups; -1 when its capacity is exceeded. */
  method MakePartitions(c: Table, parts: array<Part>) returns (n: int)
    requires c.Valid()
    modifies parts
    ensures |PartsOf(c.clients[..])| <= parts.Length ==>
              n == |PartsOf(c.clients[..])| && parts[..n] == PartsOf(c.clients[..])
    ensures |PartsOf(c.clients[..])| > parts.Length ==> n == -1
    ensures c.clients[..] == old(c.clients[..])
  {
    n := 0;
    ghost var t := c.clients[..];
    var j := 0;
    while j < c.clients.Length
      invariant 0 <= j <= c.clients.Length && c.clients[..] == t
      invariant 0 <= n <= parts.Length && parts[..n] == PartsUpTo(t, j)
    {
      var o := c.clients[j];
      if o.used && o.ringSeq != 0 {
        assert Initialised(t[j]);
        var p := FindGroup(parts, n, o);
        if p < 0 {
          if n >= parts.Length {
            PartsGrow(t, j + 1, |t|);
            return -1;
          }
          parts[n] := Part(o.ringNode, o.ringSeq, 1, 1 + Points(o.heur));
          n := n + 1;
          assert parts[..n] == PartsUpTo(t, j) + [parts[n - 1]];
        } else {
          parts[p] := parts[p].(count := parts[p].count + 1, score := parts[p].score + 1 + Points(o.heur));
          assert parts[..n] == PartsUpTo(t, j)[p := parts[p]];
        }
      }
      j := j + 1;
    }
  }

  /** The two scans of a tier: first maximum, then "is it shared?". */
  method FindTier(v: seq<int>) returns (r: int)
    ensures r == Tier(v)
  {
    var best := -1;
    var i := 0;
    while i < |v|
      invariant 0 <= i <= |v| && -1 <= best < i && (best < 0 ==> i == 0)
      invariant best >= 0 ==> forall k :: 0 <= k < i ==> v[k] <= v[best]
    {
      if best < 0 || v[best] < v[i] {
        best := i;
      }
      i := i + 1;
    }
    i := 0;
    while i < |v|
      invariant 0 <= i <= |v|
      invariant forall k :: 0 <= k < i && k != best ==> v[k] < v[best]
    {
      if i != best && v[best] == v[i] {
        assert forall b :: !UniqueMax(v, b);
        return -1;
      }
      i := i + 1;
    }
    if best >= 0 {
      assert UniqueMax(v, best);
    }
    return best;
  }

  method HasAckElsewhere(c: Table, idx: nat, last: array<u8>) returns (r: bool)
    requires c.Valid() && idx < MAX_CLIENTS == last.Length
    ensures r == FacesAck(c.clients[..], idx, last[..])
  {
    var me := c.clients[idx];
    var j := 0;
    while j < c.clients.Length
      invariant 0 <= j <= c.clients.Length
      invariant forall k :: 0 <= k < j && k != idx && c.clients[k].used && !SameRing(me, c.clients[k]) ==>
                              last[k] != VOTE_ACK
    {
      var o := c.clients[j];
      if o.used && j != idx && !(me.ringNode == o.ringNode && me.ringSeq == o.ringSeq) && last[j] == VOTE_ACK {
        assert c.clients[..][j] == o && last[..][j] == VOTE_ACK;
        return true;
      }
      j := j + 1;
    }
    return false;
  }

  /** Lowest or highest connected node id. */
  method ExtremeNode(c: Table, mode: u8, ghost idx: nat) returns (tb: u32)
    requires c.Valid() && idx < MAX_CLIENTS && c.clients[idx].used
    requires mode == TB_LOWEST || mode == TB_HIGHEST
    ensures Extreme(c.clients[..], mode, tb)
  {
    tb := 0;
    var have := false;
    var j := 0;
    while j < c.clients.Length
      invariant 0 <= j <= c.clients.Length
      invariant idx < j ==> have
      invariant have ==> exists k :: 0 <= k < j && Holds(c.clients[..], k, tb)
      invariant forall k :: 0 <= k < j && c.clients[k].used ==>
                  have && if mode == TB_LOWEST then tb <= c.clients[k].nodeId else tb >= c.clients[k].nodeId
    {
      if c.clients[j].used {
        var nid := c.clients[j].nodeId;
        if !have {
          tb := nid;
          have := true;
        } else if mode == TB_LOWEST && nid < tb {
          tb := nid;
        } else if mode == TB_HIGHEST && nid > tb {
          tb := nid;
        }
        assert tb == nid ==> Holds(c.clients[..], j, tb);
      }
      j := j + 1;
    }
  }

  method BreakTie(c: Table, idx: nat) returns (v: u8)
    requires c.Valid() && idx < MAX_CLIENTS && SomeUsed(c.clients[..])
    ensures v == TieBreakVote(c.clients[..], c.clients[idx])
  {
    var me := c.clients[idx];
    if me.tbMode == TB_LOWEST || me.tbMode == TB_HIGHEST {
      ghost var some :| 0 <= some < |c.clients[..]| && c.clients[..][some].used;
      var tb := ExtremeNode(c, me.tbMode, some);
      var j := c.FindSlot(tb);
      ghost var t := c.clients[..];
      assert forall id: u32 :: Extreme(t, me.tbMode, id) ==> id == tb;
      return VoteIf(me.nodeId == tb || SameRing(c.clients[j], me));
    }
    if me.tbMode == TB_NODE_ID {
      return VoteIf(me.nodeId == me.tbNode);
    }
    return VOTE_WAIT_FOR_REPLY;
  }

  /** Decide for caller `idx`, saving its result in `last` where the rules say so. */
  method Decide(c: Table, idx: nat, last: array<u8>) returns (v: u8)
    requires c.Valid() && idx < MAX_CLIENTS == last.Length
    modifies last
    ensures c.clients[..] == old(c.clients[..])
    ensures v == Vote(c.clients[..], idx, old(last[..]))
    ensures last[..] == Saved(c.clients[..], idx, old(last[..]))
  {
    ghost var t := c.clients[..];
    var ok := CheckRings(c, idx);
    if !ok {
      last[idx] := VOTE_WAIT_FOR_REPLY;
      return VOTE_WAIT_FOR_REPLY;
    }
    var parts := new Part[MAX_CLIENTS](_ => Part(0, 0, 0, 0));
    var nparts := MakePartitions(c, parts);
    if nparts <= 0 {
      last[idx] := VOTE_WAIT_FOR_REPLY;
      return VOTE_WAIT_FOR_REPLY;
    }
    if nparts == 1 {
      last[idx] := VOTE_ACK;
      return VOTE_ACK;
    }
    if last[idx] == LMS_NEW {
      var facing := HasAckElsewhere(c, idx, last);
      if facing {
        return VOTE_NACK;
      }
    }
    assert !NewcomerRefused(t, idx, last[..]);
    var saved: bool;
    v, saved := DecideTiers(c, idx, parts[..nparts]);
    if saved {
      last[idx] := v;
    }
  }

  method DecideTiers(c: Table, idx: nat, parts: seq<Part>) returns (v: u8, saved: bool)
    requires c.Valid() && idx < MAX_CLIENTS
    requires parts == PartsOf(c.clients[..]) && parts != []
    ensures v == TieredVote(c.clients[..], c.clients[idx])
    ensures saved == !(Tier(Scores(parts)) < 0 && Tier(Counts(parts)) < 0
                       && c.clients[idx].tbMode != TB_LOWEST && c.clients[idx].tbMode != TB_HIGHEST
                       && c.clients[idx].tbMode != TB_NODE_ID)
  {
    var me := c.clients[idx];
    var best := FindTier(Scores(parts));
    if best >= 0 {
      return VoteIf(OnRing(parts[best], me)), true;
    }
    var big := FindTier(Counts(parts));
    if big >= 0 {
      return VoteIf(OnRing(parts[big], me)), true;
    }
    GroupsNeedClients(c.clients[..], MAX_CLIENTS);
    v := BreakTie(c, idx);
    saved := me.tbMode == TB_LOWEST || me.tbMode == TB_HIGHEST || me.tbMode == TB_NODE_ID;
  }
}
