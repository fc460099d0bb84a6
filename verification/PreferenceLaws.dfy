/** When FFSplit decides and for whom, in terms of the reported fields alone: what a stable
    table is, what the score counts, and when keep-active and the tie-breaker apply. */
module PreferenceLaws {
  import opened Defs
  import opened Lists
  import opened FFSplit
  import opened FFSplitLaws

  // ---------- Stability ----------

  /** Two clients report the same config: as many entries and the same nodes. */
  ghost predicate OneConfig(a: Client, b: Client) {
    |a.cfg| == |b.cfg| && ToSet(a.cfg) == ToSet(b.cfg)
  }

  /** Both know their ring, and it is the same, as is the membership. */
  ghost predicate OnePart(a: Client, b: Client) {
    && a.hasRing && b.hasRing && a.ringNode == b.ringNode && a.ringSeq == b.ringSeq
    && |a.memb| == |b.memb| && ToSet(a.memb) <= ToSet(b.memb)
  }

  /** A table is stable exactly when all connected clients report one config, and whoever is
      connected and listed by a client agrees with it on ring and membership. */
  lemma StableExactly(t: seq<Client>)
    requires DistinctNodes(t)
    ensures Stable(t) <==>
            forall i, j :: 0 <= i < |t| && 0 <= j < |t| && t[i].used && t[j].used ==>
              OneConfig(t[i], t[j]) && (t[j].nodeId in t[i].memb ==> OnePart(t[i], t[j]))
  {
    if Stable(t) {
      forall i, j | 0 <= i < |t| && 0 <= j < |t| && t[i].used && t[j].used
        ensures OneConfig(t[i], t[j]) && (t[j].nodeId in t[i].memb ==> OnePart(t[i], t[j]))
      {
        assert StableSlot(t, i) && StableSlot(t, j);
        SlotOfUnique(t, j);
      }
    }
    if forall i, j :: 0 <= i < |t| && 0 <= j < |t| && t[i].used && t[j].used ==>
         OneConfig(t[i], t[j]) && (t[j].nodeId in t[i].memb ==> OnePart(t[i], t[j])) {
      forall i | 0 <= i < |t| && t[i].used
        ensures StableSlot(t, i)
      {
        AgreeingIsStable(t, i);
      }
    }
  }

  lemma AgreeingIsStable(t: seq<Client>, i: nat)
    requires i < |t| && t[i].used
    requires forall j :: 0 <= j < |t| && t[j].used ==>
               OneConfig(t[i], t[j]) && (t[j].nodeId in t[i].memb ==> OnePart(t[i], t[j]))
    ensures StableSlot(t, i)
  {
    forall j | 0 <= j < |t| && t[j].used
      ensures SameIds(t[i].cfg, t[j].cfg)
    {
      assert OneConfig(t[i], t[j]);
      forall x | x in t[i].cfg
        ensures x in t[j].cfg
      {
        assert x in ToSet(t[j].cfg);
      }
    }
    forall a | 0 <= a < |t[i].memb|
      ensures var p := SlotOf(t, t[i].memb[a]); p >= 0 ==> Agree(t[i], t[p])
    {
      var p := SlotOf(t, t[i].memb[a]);
      if p >= 0 {
        assert OnePart(t[i], t[p]);
        forall x | x in t[i].memb
          ensures x in t[p].memb
        {
          assert x in ToSet(t[p].memb);
        }
      }
    }
  }

  // ---------- The score ----------

  /** The connected nodes of a membership. */
  ghost function OnlineIn(t: seq<Client>, m: seq<u32>): set<u32> {
    set k | 0 <= k < |t| && t[k].used && t[k].nodeId in m :: t[k].nodeId
  }

  /** Those of them whose heuristics result is `h`. */
  ghost function OnlineWith(t: seq<Client>, m: seq<u32>, h: u8): set<u32> {
    set k | 0 <= k < |t| && t[k].used && t[k].nodeId in m && t[k].heur == h :: t[k].nodeId
  }

  /** Connected members, plus those whose heuristics passed, minus those whose failed. */
  ghost function Health(t: seq<Client>, m: seq<u32>): int {
    |OnlineIn(t, m)| + |OnlineWith(t, m, HEUR_PASS)| - |OnlineWith(t, m, HEUR_FAIL)|
  }

  lemma OneMore(t: seq<Client>, m: seq<u32>, n: nat, h: u8)
    requires DistinctNodes(t) && n < |m| && m[n] !in m[..n]
    ensures OnlineIn(t, m[..n + 1]) == OnlineIn(t, m[..n]) + if Online(t, m[n]) then {m[n]} else {}
    ensures OnlineWith(t, m[..n + 1], h) == OnlineWith(t, m[..n], h) + if Reports(t, m[n], h) then {m[n]} else {}
    ensures m[n] !in OnlineIn(t, m[..n]) && m[n] !in OnlineWith(t, m[..n], h)
  {
    assert m[..n + 1] == m[..n] + [m[n]];
    var p := SlotOf(t, m[n]);
    forall k | 0 <= k < |t| && t[k].used && t[k].nodeId == m[n]
      ensures p == k
    {
      SlotOfUnique(t, k);
    }
  }

  lemma GrownBy(s: set<u32>, x: u32, more: bool)
    requires x !in s
    ensures |s + if more then {x} else {}| == |s| + if more then 1 else 0
  {}

  lemma NoneYet(t: seq<Client>, m: seq<u32>, h: u8)
    ensures OnlineIn(t, m[..0]) == {} && OnlineWith(t, m[..0], h) == {}
  {}

  lemma {:induction false} CountedUpTo(t: seq<Client>, m: seq<u32>, n: nat, h: u8)
    requires DistinctNodes(t) && NoDup(m) && n <= |m|
    ensures ActiveUpTo(t, m, n) == |OnlineIn(t, m[..n])| && HeurUpTo(t, m, n, h) == |OnlineWith(t, m[..n], h)|
  {
    hide OnlineIn, OnlineWith, DistinctNodes, Online, Reports;
    if n == 0 {
      NoneYet(t, m, h);
    } else {
      var k := n - 1;
      CountedUpTo(t, m, k, h);
      OneMore(t, m, k, h);
      GrownBy(OnlineIn(t, m[..k]), m[k], Online(t, m[k]));
      GrownBy(OnlineWith(t, m[..k], h), m[k], Reports(t, m[k], h));
    }
  }

  /** For a membership without repetitions the three counters count connected nodes. */
  lemma ScoreIsHealth(t: seq<Client>, m: seq<u32>)
    requires DistinctNodes(t) && NoDup(m)
    ensures Active(t, m) == |OnlineIn(t, m)| && Score(t, m) == Health(t, m)
  {
    assert m[..|m|] == m;
    CountedUpTo(t, m, |m|, HEUR_PASS);
    CountedUpTo(t, m, |m|, HEUR_FAIL);
  }

  // ---------- Two halves ----------

  predicate Half(cl: Client) {
    cl.used && cl.memb != [] && 2 * |cl.memb| == |cl.cfg|
  }

  predicate NobodyAboveHalf(t: seq<Client>) {
    forall j :: 0 <= j < |t| && t[j].used ==> 2 * |t[j].memb| <= |t[j].cfg|
  }

  /** The tie-breaker of the client nominates a node of its own membership. */
  ghost predicate HasNominee(cl: Client) {
    && cl.cfg != []
    && exists p :: p in cl.memb
         && if cl.tbMode == TB_NODE_ID then p == cl.tbNode
            else p in cl.cfg && ((cl.tbMode == TB_LOWEST && forall x :: x in cl.cfg ==> p <= x)
                                 || (cl.tbMode == TB_HIGHEST && forall x :: x in cl.cfg ==> x <= p))
  }

  lemma NomineeInMemb(cl: Client)
    ensures HasNominee(cl) <==> PreferredInMemb(cl)
  {
    if HasNominee(cl) {
      var p :| p in cl.memb
        && if cl.tbMode == TB_NODE_ID then p == cl.tbNode
           else p in cl.cfg && ((cl.tbMode == TB_LOWEST && forall x :: x in cl.cfg ==> p <= x)
                                || (cl.tbMode == TB_HIGHEST && forall x :: x in cl.cfg ==> x <= p));
      assert Nominated(cl, p);
    }
    if PreferredInMemb(cl) {
      var p :| p in cl.memb && Nominated(cl, p);
      assert p in cl.memb;
    }
  }

  /** Keep-active is on: every connected client asks for it. */
  predicate AllKeep(t: seq<Client>) {
    forall j :: 0 <= j < |t| && t[j].used ==> t[j].kap
  }

  /** The half of client `i` is ahead of the half of client `j`. */
  ghost predicate Ahead(c: Cluster, i: nat, j: nat)
    requires i < |c.clients| && j < |c.clients|
  {
    var t, a, b := c.clients, c.clients[i], c.clients[j];
    if Score(t, a.memb) != Score(t, b.memb) then Score(t, a.memb) > Score(t, b.memb)
    else if Active(t, a.memb) != Active(t, b.memb) then Active(t, a.memb) > Active(t, b.memb)
    else if AllKeep(t) && (a.nodeId in c.quorate) != (b.nodeId in c.quorate) then a.nodeId in c.quorate
    else HasNominee(a) && !HasNominee(b)
  }

  lemma AheadIsRank(c: Cluster, i: nat, j: nat)
    requires i < |c.clients| && j < |c.clients| && Half(c.clients[i]) && Half(c.clients[j])
    ensures Ahead(c, i, j) <==> Less(RankOf(c, j), RankOf(c, i))
  {
    hide Score, Active, HasNominee, PreferredInMemb;
    NomineeInMemb(c.clients[i]);
    NomineeInMemb(c.clients[j]);
  }

  /** Nobody above half, and every reporting client lists itself. */
  ghost predicate Halves(c: Cluster) {
    SelfListing(Connected(c.clients)) && NobodyAboveHalf(c.clients)
  }

  lemma HalfIsReached(c: Cluster, j: nat)
    requires NobodyAboveHalf(c.clients) && j < |c.clients| && c.clients[j].used
    ensures Half(c.clients[j]) <==> ReachesHalf(c.clients[j])
    ensures !Majority(c.clients[j])
  {}

  /** A half ahead of every half of other nodes is selected. */
  lemma AheadIsSelected(c: Cluster, i: nat)
    requires Halves(c) && i < |c.clients| && Half(c.clients[i])
    requires forall j :: 0 <= j < |c.clients| && Half(c.clients[j]) ==>
               ToSet(c.clients[j].memb) == ToSet(c.clients[i].memb) || Ahead(c, i, j)
    ensures ToSet(Chosen(c)) == ToSet(c.clients[i].memb)
  {
    var t, b := c.clients, Selected(c);
    hide Ahead;
    forall j | 0 <= j < |t| && t[j].used
      ensures !Majority(t[j]) && (Half(t[j]) <==> ReachesHalf(t[j]))
    {
      HalfIsReached(c, j);
    }
    BestHalfIsMaximal(c, |t|, i);
    BestReachesHalf(c, |t|);
    assert Half(t[b]);
    if ToSet(t[b].memb) != ToSet(t[i].memb) {
      AheadIsRank(c, i, b);
      assert false;
    }
  }

  /** Among disjoint halves of one config under one tie-breaker, the selected one is ahead of
      every other. */
  lemma SelectedIsAhead(c: Cluster, mode: u8, node: u32, config: seq<u32>, j: nat)
    requires Halves(c) && Partitioned(Connected(c.clients), config)
    requires CommonTieBreaker(Connected(c.clients), mode, node, config)
    requires j < |c.clients| && Half(c.clients[j]) && ToSet(c.clients[j].memb) != ToSet(Chosen(c))
    ensures Selected(c) >= 0 && Half(c.clients[Selected(c)]) && Ahead(c, Selected(c), j)
  {
    var t, b := c.clients, Selected(c);
    hide Ahead;
    SelectIsMaximal(c, mode, node, config);
    HalfIsReached(c, j);
    HalfIsReached(c, b);
    AheadIsRank(c, b, j);
  }

  // ---------- Keep-active ----------

  /** Two clients of level halves: the same score, and as many connected members. */
  predicate LevelHalves(t: seq<Client>, a: Client, b: Client) {
    Score(t, a.memb) == Score(t, b.memb) && Active(t, a.memb) == Active(t, b.memb)
  }

  /** With all connected clients asking for keep-active, the level half that had the vote
      keeps it, whatever the tie-breaker. */
  lemma KeepActiveKeeps(c: Cluster, i: nat)
    requires Halves(c) && i < |c.clients| && Half(c.clients[i])
    requires forall j :: 0 <= j < |c.clients| && c.clients[j].used ==> c.clients[j].kap
    requires c.clients[i].nodeId in c.quorate
    requires forall j :: 0 <= j < |c.clients| && Half(c.clients[j]) ==>
               ToSet(c.clients[j].memb) == ToSet(c.clients[i].memb)
               || (LevelHalves(c.clients, c.clients[i], c.clients[j]) && c.clients[j].nodeId !in c.quorate)
    ensures ToSet(Chosen(c)) == ToSet(c.clients[i].memb)
  {
    hide Score, Active, HasNominee;
    AheadIsSelected(c, i);
  }

  lemma {:induction false} SameBest(c: Cluster, c': Cluster, k: nat)
    requires c.clients == c'.clients && k <= |c.clients| && !KapOn(c.clients)
    ensures BestOf(c, k) == BestOf(c', k)
  {
    if k > 0 { SameBest(c, c', k - 1); }
  }

  /** As soon as one connected client does not ask for it, what was selected before has no
      influence at all. */
  lemma KeepActiveOff(c: Cluster, c': Cluster, i: nat)
    requires c.clients == c'.clients && i < |c.clients| && c.clients[i].used && !c.clients[i].kap
    ensures Chosen(c) == Chosen(c')
  {
    SameBest(c, c', |c.clients|);
  }

  /** Without keep-active the level half that contains the nominated node is selected. */
  lemma TieBreakerDecides(c: Cluster, i: nat, off: nat)
    requires Halves(c) && i < |c.clients| && Half(c.clients[i]) && HasNominee(c.clients[i])
    requires off < |c.clients| && c.clients[off].used && !c.clients[off].kap
    requires forall j :: 0 <= j < |c.clients| && Half(c.clients[j]) ==>
               ToSet(c.clients[j].memb) == ToSet(c.clients[i].memb)
               || (LevelHalves(c.clients, c.clients[i], c.clients[j]) && !HasNominee(c.clients[j]))
    ensures ToSet(Chosen(c)) == ToSet(c.clients[i].memb)
  {
    hide Score, Active, HasNominee;
    AheadIsSelected(c, i);
  }

  /** More than half of a shared config wins whatever scores, flags and tie-breaker say. */
  lemma MoreThanHalfWins(c: Cluster, w: nat, config: seq<u32>)
    requires Partitioned(Connected(c.clients), config)
    requires w < |c.clients| && c.clients[w].used && 2 * |c.clients[w].memb| > |config|
    ensures ToSet(Chosen(c)) == ToSet(c.clients[w].memb)
  {
    assert c.clients[w] in Connected(c.clients);
    MajorityWins(c, w, config);
  }
}
