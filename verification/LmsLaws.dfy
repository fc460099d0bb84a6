/** What the LMS decision promises (docs/lms.md): grouping conserves the clients, only
    one ring is ever granted the vote, and repeating a decision changes nothing. */
module LmsLaws {
  import opened Defs
  import opened FFSplit
  import opened FFSplitLaws
  import opened Lms

  // ---------- Grouping is a conserving partition ----------

  predicate InGroup(cl: Client, rn: u32, rs: u64) {
    Initialised(cl) && cl.ringNode == rn && cl.ringSeq == rs
  }

  /** Initialised clients on a ring among the first `k` slots. */
  function GroupSize(t: seq<Client>, k: nat, rn: u32, rs: u64): nat
    requires k <= |t|
  {
    if k == 0 then 0 else GroupSize(t, k - 1, rn, rs) + if InGroup(t[k - 1], rn, rs) then 1 else 0
  }

  function GroupHeur(t: seq<Client>, k: nat, rn: u32, rs: u64, h: u8): nat
    requires k <= |t|
  {
    if k == 0 then 0
    else GroupHeur(t, k - 1, rn, rs, h) + if InGroup(t[k - 1], rn, rs) && t[k - 1].heur == h then 1 else 0
  }

  function InitialisedCount(t: seq<Client>, k: nat): nat
    requires k <= |t|
  {
    if k == 0 then 0 else InitialisedCount(t, k - 1) + if Initialised(t[k - 1]) then 1 else 0
  }

  function SumCounts(parts: seq<Part>): int {
    if parts == [] then 0 else SumCounts(parts[..|parts| - 1]) + parts[|parts| - 1].count
  }

  ghost predicate DistinctRings(parts: seq<Part>) {
    forall i, j :: 0 <= i < j < |parts| ==>
      !(parts[i].ringNode == parts[j].ringNode && parts[i].ringSeq == parts[j].ringSeq)
  }

  ghost predicate Exact(t: seq<Client>, k: nat, p: Part)
    requires k <= |t|
  {
    && p.count == GroupSize(t, k, p.ringNode, p.ringSeq)
    && p.score == p.count + GroupHeur(t, k, p.ringNode, p.ringSeq, HEUR_PASS)
                  - GroupHeur(t, k, p.ringNode, p.ringSeq, HEUR_FAIL)
  }

  lemma {:induction false} NoGroupYet(t: seq<Client>, k: nat, rn: u32, rs: u64)
    requires k <= |t|
    requires forall i :: 0 <= i < k && Initialised(t[i]) ==> !InGroup(t[i], rn, rs)
    ensures GroupSize(t, k, rn, rs) == 0
    ensures forall h :: GroupHeur(t, k, rn, rs, h) == 0
  {
    if k > 0 {
      NoGroupYet(t, k - 1, rn, rs);
    }
  }

  lemma {:induction false} HeurWithinGroup(t: seq<Client>, k: nat, rn: u32, rs: u64)
    requires k <= |t|
    ensures GroupHeur(t, k, rn, rs, HEUR_PASS) + GroupHeur(t, k, rn, rs, HEUR_FAIL) <= GroupSize(t, k, rn, rs)
  {
    if k > 0 {
      HeurWithinGroup(t, k - 1, rn, rs);
    }
  }

  ghost predicate Grouped(t: seq<Client>, k: nat, parts: seq<Part>)
    requires k <= |t|
  {
    && DistinctRings(parts)
    && (forall i :: 0 <= i < |parts| ==> parts[i].ringSeq != 0 && Exact(t, k, parts[i]))
    && (forall s :: 0 <= s < k && Initialised(t[s]) ==> GroupFrom(parts, t[s], 0) >= 0)
  }

  lemma SameRingSameGroup(parts: seq<Part>, parts': seq<Part>, cl: Client)
    requires |parts| <= |parts'| && GroupFrom(parts, cl, 0) >= 0
    requires forall i :: 0 <= i < |parts| ==>
               parts'[i].ringNode == parts[i].ringNode && parts'[i].ringSeq == parts[i].ringSeq
    ensures GroupFrom(parts', cl, 0) >= 0
  {
    assert OnRing(parts'[GroupFrom(parts, cl, 0)], cl);
  }

  lemma GroupStep(t: seq<Client>, k: nat, parts: seq<Part>)
    requires 0 < k <= |t| && Grouped(t, k - 1, parts) && Initialised(t[k - 1])
    ensures Grouped(t, k, AddClient(parts, t[k - 1]))
  {
    var cl, parts' := t[k - 1], AddClient(parts, t[k - 1]);
    var p := GroupFrom(parts, cl, 0);
    if p < 0 {
      forall s | 0 <= s < k - 1 && Initialised(t[s])
        ensures !InGroup(t[s], cl.ringNode, cl.ringSeq)
      {
        assert OnRing(parts[GroupFrom(parts, t[s], 0)], t[s]);
      }
      NoGroupYet(t, k - 1, cl.ringNode, cl.ringSeq);
    }
    var q := if p < 0 then |parts| else p;
    assert OnRing(parts'[q], cl) && Exact(t, k, parts'[q]);
    forall i | 0 <= i < |parts'| && i != q
      ensures Exact(t, k, parts'[i])
    {
      assert Exact(t, k - 1, parts[i]) && !OnRing(parts[i], cl);
    }
    forall s | 0 <= s < k && Initialised(t[s])
      ensures GroupFrom(parts', t[s], 0) >= 0
    {
      if s < k - 1 {
        SameRingSameGroup(parts, parts', t[s]);
      }
    }
  }

  lemma {:induction false} GroupsUpTo(t: seq<Client>, k: nat)
    requires k <= |t|
    ensures Grouped(t, k, PartsUpTo(t, k))
  {
    if k > 0 {
      GroupsUpTo(t, k - 1);
      var parts := PartsUpTo(t, k - 1);
      if Initialised(t[k - 1]) {
        GroupStep(t, k, parts);
      } else {
        forall i | 0 <= i < |parts|
          ensures Exact(t, k, parts[i])
        {
          assert Exact(t, k - 1, parts[i]);
        }
      }
    }
  }

  lemma {:induction false} SumAfterUpdate(parts: seq<Part>, p: nat, v: Part)
    requires p < |parts|
    ensures SumCounts(parts[p := v]) == SumCounts(parts) - parts[p].count + v.count
  {
    var n := |parts| - 1;
    if p == n {
      assert parts[p := v][..n] == parts[..n];
    } else {
      assert parts[p := v][..n] == parts[..n][p := v];
      SumAfterUpdate(parts[..n], p, v);
    }
  }

  lemma {:induction false} CountsSum(t: seq<Client>, k: nat)
    requires k <= |t|
    ensures SumCounts(PartsUpTo(t, k)) == InitialisedCount(t, k)
  {
    if k > 0 {
      CountsSum(t, k - 1);
      var parts, cl := PartsUpTo(t, k - 1), t[k - 1];
      if Initialised(cl) {
        var p := GroupFrom(parts, cl, 0);
        if p < 0 {
          var parts' := AddClient(parts, cl);
          assert parts'[..|parts'| - 1] == parts;
        } else {
          SumAfterUpdate(parts, p, parts[p].(count := parts[p].count + 1,
                                             score := parts[p].score + 1 + Points(cl.heur)));
        }
      }
    }
  }

  /** Grouping never exceeds its capacity, has one group per ring, places every
      initialised client exactly once, and each score is count + passes - fails. */
  lemma GroupingConserves(t: seq<Client>)
    ensures |PartsOf(t)| <= |t|
    ensures DistinctRings(PartsOf(t))
    ensures forall s :: 0 <= s < |t| && Initialised(t[s]) ==>
              exists i :: 0 <= i < |PartsOf(t)| && OnRing(PartsOf(t)[i], t[s])
                          && forall j :: 0 <= j < |PartsOf(t)| && j != i ==> !OnRing(PartsOf(t)[j], t[s])
    ensures SumCounts(PartsOf(t)) == InitialisedCount(t, |t|)
    ensures forall i :: 0 <= i < |PartsOf(t)| ==>
              Exact(t, |t|, PartsOf(t)[i]) && 0 <= PartsOf(t)[i].score <= 2 * PartsOf(t)[i].count
  {
    GroupsUpTo(t, |t|);
    CountsSum(t, |t|);
    var parts := PartsOf(t);
    forall s | 0 <= s < |t| && Initialised(t[s])
      ensures exists i :: 0 <= i < |parts| && OnRing(parts[i], t[s])
                          && forall j :: 0 <= j < |parts| && j != i ==> !OnRing(parts[j], t[s])
    {
      var i := GroupFrom(parts, t[s], 0);
      assert OnRing(parts[i], t[s]);
      forall j | 0 <= j < |parts| && j != i
        ensures !OnRing(parts[j], t[s])
      {
        assert DistinctRings(parts);
        if j < i { assert !OnRing(parts[j], t[s]); }
      }
    }
    forall i | 0 <= i < |parts|
      ensures 0 <= parts[i].score <= 2 * parts[i].count
    {
      assert Exact(t, |t|, parts[i]);
      HeurWithinGroup(t, |t|, parts[i].ringNode, parts[i].ringSeq);
    }
  }

  // ---------- Only one ring is granted ----------

  /** Next to a single group, two clients on different rings that both pass the ring check. */
  predicate StrayPair(t: seq<Client>, i: nat, j: nat)
    requires i < |t| && j < |t|
  {
    |PartsOf(t)| == 1 && RingsMatch(t, i) && RingsMatch(t, j) && !SameRing(t[i], t[j])
  }

  lemma LoneGroupGrants(t: seq<Client>, i: nat, last: seq<u8>)
    requires i < |t| == |last| && |PartsOf(t)| == 1
    ensures Vote(t, i, last) == VOTE_ACK <==> RingsMatch(t, i)
  {}

  /** Exactly when two connected clients are not such a pair can their grants never go to
      two rings, whatever was saved. */
  lemma GrantsShareRingExactly(t: seq<Client>, i: nat, j: nat)
    requires DistinctNodes(t) && i < |t| && j < |t| && t[i].used && t[j].used
    requires t[i].tbMode == t[j].tbMode && t[i].tbNode == t[j].tbNode
    ensures (forall last: seq<u8>, last': seq<u8> ::
               |last| == |t| && |last'| == |t| && Vote(t, i, last) == VOTE_ACK && Vote(t, j, last') == VOTE_ACK ==>
                 SameRing(t[i], t[j]))
            <==> !StrayPair(t, i, j)
  {
    if StrayPair(t, i, j) {
      var last := seq(|t|, _ => LMS_NEW);
      LoneGroupGrants(t, i, last);
      LoneGroupGrants(t, j, last);
    } else {
      forall last: seq<u8>, last': seq<u8> | |last| == |t| && |last'| == |t|
                                             && Vote(t, i, last) == VOTE_ACK && Vote(t, j, last') == VOTE_ACK
        ensures SameRing(t[i], t[j])
      {
        if |PartsOf(t)| == 1 {
          LoneGroupGrants(t, i, last);
          LoneGroupGrants(t, j, last');
        }
      }
    }
  }

  lemma InitialisedIsNoStray(t: seq<Client>, i: nat, j: nat)
    requires i < |t| && j < |t| && Initialised(t[i]) && Initialised(t[j])
    ensures !StrayPair(t, i, j)
  {
    GroupsUpTo(t, |t|);
    var parts := PartsOf(t);
    if |parts| == 1 {
      assert GroupFrom(parts, t[i], 0) == 0 && GroupFrom(parts, t[j], 0) == 0;
    }
  }

  /** Whichever tier decided and whatever was saved, two grants of initialised clients go to
      one ring. */
  lemma GrantsShareRing(t: seq<Client>, i: nat, j: nat, last: seq<u8>, last': seq<u8>)
    requires DistinctNodes(t) && i < |t| && j < |t| && |last| == |last'| == |t|
    requires Initialised(t[i]) && Initialised(t[j])
    requires t[i].tbMode == t[j].tbMode && t[i].tbNode == t[j].tbNode
    requires Vote(t, i, last) == VOTE_ACK && Vote(t, j, last') == VOTE_ACK
    ensures SameRing(t[i], t[j])
  {
    InitialisedIsNoStray(t, i, j);
    GrantsShareRingExactly(t, i, j);
  }

  /** The votes of a sequence of decisions on a fixed table. */
  ghost function Run(t: seq<Client>, calls: seq<nat>, last: seq<u8>): (r: seq<u8>)
    requires |last| == |t| && forall k :: 0 <= k < |calls| ==> calls[k] < |t|
    ensures |r| == |calls|
  {
    if calls == [] then []
    else [Vote(t, calls[0], last)] + Run(t, calls[1..], Saved(t, calls[0], last))
  }

  lemma {:induction false} RunVoteAt(t: seq<Client>, calls: seq<nat>, last: seq<u8>, a: nat) returns (l: seq<u8>)
    requires |last| == |t| && forall k :: 0 <= k < |calls| ==> calls[k] < |t|
    requires a < |calls|
    ensures |l| == |t| && Run(t, calls, last)[a] == Vote(t, calls[a], l)
  {
    if a == 0 {
      l := last;
    } else {
      l := RunVoteAt(t, calls[1..], Saved(t, calls[0], last), a - 1);
    }
  }

  ghost predicate Callers(t: seq<Client>, calls: seq<nat>) {
    forall k :: 0 <= k < |calls| ==> calls[k] < |t| && t[calls[k]].used
  }

  ghost predicate OneRing(t: seq<Client>, calls: seq<nat>, last: seq<u8>)
    requires |last| == |t| && Callers(t, calls)
  {
    forall a, b :: 0 <= a < |calls| && 0 <= b < |calls|
                   && Run(t, calls, last)[a] == VOTE_ACK && Run(t, calls, last)[b] == VOTE_ACK ==>
      SameRing(t[calls[a]], t[calls[b]])
  }

  lemma NoStrayCallers(t: seq<Client>, calls: seq<nat>, last: seq<u8>)
    requires DistinctNodes(t) && |last| == |t| && Callers(t, calls)
    requires forall a, b :: 0 <= a < |calls| && 0 <= b < |calls| ==>
               t[calls[a]].tbMode == t[calls[b]].tbMode && t[calls[a]].tbNode == t[calls[b]].tbNode
    requires forall a, b :: 0 <= a < |calls| && 0 <= b < |calls| ==> !StrayPair(t, calls[a], calls[b])
    ensures OneRing(t, calls, last)
  {
    var votes := Run(t, calls, last);
    forall a, b | 0 <= a < |calls| && 0 <= b < |calls| && votes[a] == VOTE_ACK && votes[b] == VOTE_ACK
      ensures SameRing(t[calls[a]], t[calls[b]])
    {
      var la := RunVoteAt(t, calls, last, a);
      var lb := RunVoteAt(t, calls, last, b);
      GrantsShareRingExactly(t, calls[a], calls[b]);
    }
  }

  /** Over any sequence of decisions by initialised clients, one ring at most is granted. */
  lemma OneRingIsGranted(t: seq<Client>, calls: seq<nat>, last: seq<u8>, mode: u8, node: u32)
    requires DistinctNodes(t) && |last| == |t|
    requires forall k :: 0 <= k < |calls| ==>
               calls[k] < |t| && Initialised(t[calls[k]])
               && t[calls[k]].tbMode == mode && t[calls[k]].tbNode == node
    ensures forall a, b ::
              0 <= a < |calls| && 0 <= b < |calls|
              && Run(t, calls, last)[a] == VOTE_ACK && Run(t, calls, last)[b] == VOTE_ACK ==>
                SameRing(t[calls[a]], t[calls[b]])
  {
    forall a, b | 0 <= a < |calls| && 0 <= b < |calls|
      ensures !StrayPair(t, calls[a], calls[b])
    {
      InitialisedIsNoStray(t, calls[a], calls[b]);
    }
    NoStrayCallers(t, calls, last);
    assert OneRing(t, calls, last);
  }

  /** Some connected pair is stray. */
  predicate Stray(t: seq<Client>) {
    exists i, j :: 0 <= i < |t| && 0 <= j < |t| && t[i].used && t[j].used && StrayPair(t, i, j)
  }

  lemma StrayCallers(t: seq<Client>, i: nat, j: nat, last: seq<u8>)
    requires i < |t| && j < |t| && |last| == |t| && t[i].used && t[j].used && StrayPair(t, i, j)
    ensures Callers(t, [i, j]) && !OneRing(t, [i, j], last)
  {
    var calls := [i, j];
    LoneGroupGrants(t, i, last);
    LoneGroupGrants(t, j, Saved(t, i, last));
    assert calls[1..] == [j];
    assert Run(t, calls, last)[0] == VOTE_ACK;
    assert Run(t, calls, last)[1] == Run(t, [j], Saved(t, i, last))[0] == VOTE_ACK;
  }

  /** Whatever connected clients call, in whatever order, and whatever was saved, at most one
      ring is granted -- exactly when no connected pair is stray. */
  lemma OneRingExactly(t: seq<Client>, mode: u8, node: u32)
    requires DistinctNodes(t)
    requires forall i :: 0 <= i < |t| && t[i].used ==> t[i].tbMode == mode && t[i].tbNode == node
    ensures (forall calls: seq<nat>, last: seq<u8> :: |last| == |t| && Callers(t, calls) ==> OneRing(t, calls, last))
            <==> !Stray(t)
  {
    if Stray(t) {
      var i: nat, j: nat :| i < |t| && j < |t| && t[i].used && t[j].used && StrayPair(t, i, j);
      StrayCallers(t, i, j, seq(|t|, _ => LMS_NEW));
    } else {
      forall calls: seq<nat>, last: seq<u8> | |last| == |t| && Callers(t, calls)
        ensures OneRing(t, calls, last)
      {
        NoStrayCallers(t, calls, last);
      }
    }
  }

  /** Node 1 has reported nothing yet; node 2 is alone on its ring. */
  const RINGLESS: seq<Client> :=
    Padded([FreshClient(1), FreshClient(2).(memb := [2], hasRing := true, ringNode := 2, ringSeq := 10)])

  lemma {:induction false} RinglessParts(k: nat)
    requires 2 <= k <= MAX_CLIENTS
    ensures |PartsUpTo(RINGLESS, k)| == 1
  {
    if k == 2 {
      assert PartsUpTo(RINGLESS, 0) == [] && PartsUpTo(RINGLESS, 1) == [];
    } else {
      RinglessParts(k - 1);
    }
  }

  /** A caller without a ring is granted the vote next to a single foreign partition. */
  lemma UninitialisedCallerIsGranted()
    ensures exists t: seq<Client>, last: seq<u8> ::
              |t| == |last| == MAX_CLIENTS && DistinctNodes(t) && Stray(t) && t[0].used && t[0].ringSeq == 0
              && Vote(t, 0, last) == VOTE_ACK && Vote(t, 1, last) == VOTE_ACK && !SameRing(t[0], t[1])
  {
    var t, last: seq<u8> := RINGLESS, seq(MAX_CLIENTS, _ => LMS_NEW);
    RinglessParts(MAX_CLIENTS);
    assert RingsMatch(t, 0) && RingsMatch(t, 1);
    LoneGroupGrants(t, 0, last);
    LoneGroupGrants(t, 1, last);
    assert StrayPair(t, 0, 1);
    assert DistinctNodes(t);
  }

  /** A client that never voted cannot take the vote from a partition that was granted it,
      however large or healthy its own partition is. */
  lemma NewcomerNeverTakesOver(t: seq<Client>, i: nat, j: nat, last: seq<u8>)
    requires i < |t| == |last| && j < |t| && Initialised(t[i]) && Initialised(t[j])
    requires !SameRing(t[i], t[j]) && last[j] == VOTE_ACK && last[i] == LMS_NEW
    ensures Vote(t, i, last) != VOTE_ACK
    ensures Vote(t, i, last) == VOTE_NACK ==> Saved(t, i, last) == last
  {
    GroupsUpTo(t, |t|);
    var parts := PartsOf(t);
    var g, h := GroupFrom(parts, t[i], 0), GroupFrom(parts, t[j], 0);
    assert OnRing(parts[g], t[i]) && OnRing(parts[h], t[j]);
    assert g != h;
    assert FacesAck(t, i, last);
  }

  // ---------- Repeating a decision ----------

  /** On an unchanged table a second decision gives the same vote and the same saved votes. */
  lemma DecideTwice(t: seq<Client>, idx: nat, last: seq<u8>)
    requires idx < |t| == |last|
    ensures Vote(t, idx, Saved(t, idx, last)) == Vote(t, idx, last)
    ensures Saved(t, idx, Saved(t, idx, last)) == Saved(t, idx, last)
  {
    var once := Saved(t, idx, last);
    if once != last {
      assert once[idx] != LMS_NEW;
      assert once[idx := once[idx]] == once;
    }
  }

  ghost predicate Settled(t: seq<Client>, exclude: int, last: seq<u8>)
    requires |t| == |last|
  {
    forall i :: 0 <= i < |t| && Waits(t, exclude, last, i) ==> Vote(t, i, last) == VOTE_WAIT_FOR_REPLY
  }

  lemma WaiterIgnoresOthers(t: seq<Client>, i: nat, last: seq<u8>, last': seq<u8>)
    requires i < |t| == |last| == |last'|
    requires last[i] != LMS_NEW && last'[i] != LMS_NEW
    ensures Vote(t, i, last) == Vote(t, i, last')
  {}
}
