/** What the FFSplit decision promises (docs/ffsplit.md): the selected partition does
    not depend on slot order, a majority always wins, a stable table is a true
    partition, and everybody is refused exactly when nobody reaches half. */
module FFSplitLaws {
  import opened Defs
  import opened Lists
  import opened FFSplit

  ghost function Connected(t: seq<Client>): set<Client> {
    set i | 0 <= i < |t| && t[i].used :: t[i]
  }

  ghost predicate DistinctNodes(t: seq<Client>) {
    forall i, j :: 0 <= i < j < |t| && t[i].used && t[j].used ==> t[i].nodeId != t[j].nodeId
  }

  /** A client that has reported a membership lists itself (server.c:547-562). */
  ghost predicate SelfListed(cl: Client) {
    cl.memb != [] ==> cl.nodeId in cl.memb
  }

  ghost predicate SelfListing(u: set<Client>) {
    forall cl :: cl in u ==> SelfListed(cl)
  }

  /** One shared config; duplicate-free memberships inside it, pairwise equal or disjoint. */
  ghost predicate Partitioned(u: set<Client>, config: seq<u32>) {
    && (forall a :: a in u ==> Within(a, config))
    && (forall a, b :: a in u && b in u ==> EqualOrDisjoint(a.memb, b.memb))
  }

  ghost predicate Within(a: Client, config: seq<u32>) {
    && |a.cfg| == |config| && ToSet(a.cfg) == ToSet(config)
    && NoDup(a.memb) && ToSet(a.memb) <= ToSet(config)
  }

  ghost predicate EqualOrDisjoint(a: seq<u32>, b: seq<u32>) {
    ToSet(a) == ToSet(b) || ToSet(a) !! ToSet(b)
  }

  ghost predicate CommonTieBreaker(u: set<Client>, mode: u8, node: u32, config: seq<u32>) {
    && (forall a :: a in u ==> a.tbMode == mode && a.tbNode == node)
    && (mode == TB_LOWEST || mode == TB_HIGHEST || (mode == TB_NODE_ID && node in config))
  }

  /** A reported membership that reaches half of the config, or more. */
  predicate ReachesHalf(cl: Client) {
    cl.memb != [] && (Majority(cl) || ExactHalf(cl))
  }

  /** A whole client table: slots 0, 1, ... hold `cs`, the rest are free. */
  function Padded(cs: seq<Client>): (t: seq<Client>)
    requires |cs| <= MAX_CLIENTS
    ensures |t| == MAX_CLIENTS
    ensures forall i :: 0 <= i < MAX_CLIENTS ==> t[i] == if i < |cs| then cs[i] else EMPTY_SLOT
  {
    cs + seq(MAX_CLIENTS - |cs|, _ => EMPTY_SLOT)
  }

  // ---------- Scores ----------

  /** Both counts depend on the connected slots and on which ids occur, and how often. */
  lemma {:induction false} CountsDependOnIds(
    t: seq<Client>, t': seq<Client>, a: seq<u32>, b: seq<u32>, n: nat, h: u8)
    requires n <= |a| && n <= |b|
    requires forall i :: 0 <= i < n ==> a[i] == b[i]
    requires forall id: u32 :: (Online(t, id) <==> Online(t', id)) && (Reports(t, id, h) <==> Reports(t', id, h))
    ensures ActiveUpTo(t, a, n) == ActiveUpTo(t', b, n)
    ensures HeurUpTo(t, a, n, h) == HeurUpTo(t', b, n, h)
  {
    if n > 0 {
      CountsDependOnIds(t, t', a, b, n - 1, h);
    }
  }

  lemma {:induction false} CountsSplitUpTo(t: seq<Client>, a: seq<u32>, b: seq<u32>, n: nat, h: u8)
    requires n <= |b|
    ensures ActiveUpTo(t, a + b, |a| + n) == Active(t, a) + ActiveUpTo(t, b, n)
    ensures HeurUpTo(t, a + b, |a| + n, h) == HeurUpTo(t, a, |a|, h) + HeurUpTo(t, b, n, h)
  {
    if n == 0 {
      CountsDependOnIds(t, t, a + b, a, |a|, h);
    } else {
      CountsSplitUpTo(t, a, b, n - 1, h);
      assert (a + b)[|a| + n - 1] == b[n - 1];
    }
  }

  function Heur(t: seq<Client>, m: seq<u32>, h: u8): nat {
    HeurUpTo(t, m, |m|, h)
  }

  lemma CountsSplit(t: seq<Client>, a: seq<u32>, b: seq<u32>, h: u8)
    ensures Active(t, a + b) == Active(t, a) + Active(t, b)
    ensures Heur(t, a + b, h) == Heur(t, a, h) + Heur(t, b, h)
  {
    CountsSplitUpTo(t, a, b, |b|, h);
  }

  lemma RemoveOne(a: seq<u32>, b: seq<u32>) returns (k: nat)
    requires a != [] && multiset(a) == multiset(b)
    ensures k < |b| && b[k] == a[0]
    ensures multiset(a[1..]) == multiset(b[..k] + b[k + 1..])
  {
    assert a == [a[0]] + a[1..];
    assert a[0] in multiset(b);
    k :| 0 <= k < |b| && b[k] == a[0];
    var l, r := b[..k], b[k + 1..];
    assert b == l + [b[k]] + r;
    assert multiset(a[1..]) == multiset(a) - multiset{a[0]};
    assert multiset(l + r) == multiset(l) + multiset(r) == multiset(b) - multiset{a[0]};
  }

  lemma {:induction false} CountsPermutation(t: seq<Client>, a: seq<u32>, b: seq<u32>, h: u8)
    requires multiset(a) == multiset(b)
    ensures Active(t, a) == Active(t, b) && Heur(t, a, h) == Heur(t, b, h)
    decreases |a|
  {
    if a == [] {
      assert b == [] by { assert |multiset(b)| == 0; }
    } else {
      var k := RemoveOne(a, b);
      var x, rest, l, r := a[0], a[1..], b[..k], b[k + 1..];
      CountsPermutation(t, rest, l + r, h);
      CountsSplit(t, [x], rest, h);
      CountsSplit(t, l, [x] + r, h);
      CountsSplit(t, [x], r, h);
      CountsSplit(t, l, r, h);
      assert a == [x] + rest && b == l + ([x] + r);
    }
  }

  /** Permuted memberships have the same score, and the wrapped sum computes it exactly. */
  lemma ScorePermutation(t: seq<Client>, a: seq<u32>, b: seq<u32>, modulus: int)
    requires multiset(a) == multiset(b) && 2 * |a| < modulus
    ensures WrappedScore(Active(t, a), Heur(t, a, HEUR_PASS), Heur(t, a, HEUR_FAIL), modulus) == Score(t, b)
    ensures 0 <= Score(t, b) <= 2 * Active(t, b)
  {
    WrappedScoreExact(t, a, modulus);
    CountsPermutation(t, a, b, HEUR_PASS);
    CountsPermutation(t, a, b, HEUR_FAIL);
  }

  lemma {:induction false} ConnectedMemberCounts(t: seq<Client>, m: seq<u32>, n: nat, k: nat)
    requires k < n <= |m| && Online(t, m[k])
    ensures ActiveUpTo(t, m, n) >= 1
  {
    if k < n - 1 {
      ConnectedMemberCounts(t, m, n - 1, k);
    }
  }

  lemma ReporterIsActive(t: seq<Client>, i: nat)
    requires i < |t| && t[i].used && t[i].memb != [] && SelfListed(t[i])
    ensures Active(t, t[i].memb) >= 1 && Score(t, t[i].memb) >= 0
  {
    assert Holds(t, i, t[i].nodeId);
    var m := t[i].memb;
    var k :| 0 <= k < |m| && m[k] == t[i].nodeId;
    ConnectedMemberCounts(t, m, |m|, k);
    HeurWithinActive(t, m, |m|);
  }

  // ---------- Nobody reaches half <==> everybody is refused ----------

  lemma WinnerReachesHalf(c: Cluster, i: nat, b: int)
    requires i < |c.clients| && -1 <= b < |c.clients|
    requires c.clients[i].used && SelfListed(c.clients[i])
    requires b >= 0 ==> c.clients[b].used && SelfListed(c.clients[b]) && ReachesHalf(c.clients[b])
    ensures Beats(c, i, b) ==> ReachesHalf(c.clients[i])
    ensures b < 0 && ReachesHalf(c.clients[i]) ==> Beats(c, i, b)
  {
    var t := c.clients;
    if t[i].memb != [] {
      ReporterIsActive(t, i);
    } else {
      assert Active(t, t[i].memb) == 0 && Score(t, t[i].memb) == 0;
      if b >= 0 {
        ReporterIsActive(t, b);
      }
    }
  }

  lemma {:induction false} BestReachesHalf(c: Cluster, k: nat)
    requires k <= |c.clients| && SelfListing(Connected(c.clients))
    ensures BestOf(c, k) >= 0 ==> ReachesHalf(c.clients[BestOf(c, k)])
    ensures BestOf(c, k) < 0 ==> forall i :: 0 <= i < k && c.clients[i].used ==> !ReachesHalf(c.clients[i])
  {
    if k > 0 {
      BestReachesHalf(c, k - 1);
      var i, b := k - 1, BestOf(c, k - 1);
      if c.clients[i].used {
        assert c.clients[i] in Connected(c.clients);
        assert b >= 0 ==> c.clients[b] in Connected(c.clients);
        WinnerReachesHalf(c, i, b);
      }
    }
  }

  /** Exactly when no client reaches half, every reporting client is voted NACK. */
  lemma NackAllExactly(c: Cluster)
    requires SelfListing(Connected(c.clients))
    ensures (forall i :: 0 <= i < |c.clients| && c.clients[i].used && c.clients[i].memb != [] ==>
               VoteFor(Chosen(c), c.clients[i].nodeId) == VOTE_NACK)
            <==>
            (forall i :: 0 <= i < |c.clients| && c.clients[i].used ==> !ReachesHalf(c.clients[i]))
  {
    BestReachesHalf(c, |c.clients|);
    var b := Selected(c);
    if b >= 0 {
      assert c.clients[b] in Connected(c.clients);
      assert c.clients[b].used && ReachesHalf(c.clients[b]);
      assert VoteFor(Chosen(c), c.clients[b].nodeId) == VOTE_ACK;
    }
  }

  /** A lone client holding exactly half is granted the vote whatever its heuristics say. */
  lemma LoneHalfWins(c: Cluster, i: nat)
    requires i < |c.clients| && c.clients[i].used && ReachesHalf(c.clients[i])
    requires forall j :: 0 <= j < |c.clients| && c.clients[j].used && j != i ==> !ReachesHalf(c.clients[j])
    requires SelfListing(Connected(c.clients))
    ensures Chosen(c) == c.clients[i].memb
    ensures VoteFor(Chosen(c), c.clients[i].nodeId) == VOTE_ACK
  {
    BestReachesHalf(c, |c.clients|);
    assert c.clients[i] in Connected(c.clients);
  }

  // ---------- A stable table is a partition ----------

  lemma SlotOfUnique(t: seq<Client>, i: nat)
    requires i < |t| && t[i].used && DistinctNodes(t)
    ensures SlotOf(t, t[i].nodeId) == i
  {
    assert Holds(t, i, t[i].nodeId);
  }

  /** Being listed is mutual, and listed clients share ring and membership. */
  lemma ListedPeersAgree(t: seq<Client>, i: nat, j: nat)
    requires Stable(t) && DistinctNodes(t) && SelfListing(Connected(t))
    requires i < |t| && t[i].used && j < |t| && t[j].used
    requires t[j].nodeId in t[i].memb
    ensures t[i].nodeId in t[j].memb
    ensures ToSet(t[i].memb) == ToSet(t[j].memb)
    ensures t[i].hasRing && t[j].hasRing && SameRing(t[i], t[j])
  {
    SlotOfUnique(t, i);
    SlotOfUnique(t, j);
    assert StableSlot(t, i) && StableSlot(t, j);
    var a :| 0 <= a < |t[i].memb| && t[i].memb[a] == t[j].nodeId;
    assert Agree(t[i], t[j]);
    assert t[i] in Connected(t);
    var b :| 0 <= b < |t[j].memb| && t[j].memb[b] == t[i].nodeId;
    assert Agree(t[j], t[i]);
  }

  /** "j is in i's membership" is an equivalence on connected reporting clients. */
  lemma StableIsEquivalence(t: seq<Client>)
    requires Stable(t) && DistinctNodes(t) && SelfListing(Connected(t))
    ensures forall i :: 0 <= i < |t| && t[i].used && t[i].memb != [] ==> t[i].nodeId in t[i].memb
    ensures forall i, j ::
              (0 <= i < |t| && 0 <= j < |t| && t[i].used && t[j].used && t[j].nodeId in t[i].memb) ==>
                t[i].nodeId in t[j].memb
    ensures forall i, j, k ::
              (0 <= i < |t| && 0 <= j < |t| && 0 <= k < |t| && t[i].used && t[j].used && t[k].used
               && t[j].nodeId in t[i].memb && t[k].nodeId in t[j].memb) ==> t[k].nodeId in t[i].memb
  {
    forall i | 0 <= i < |t| && t[i].used && t[i].memb != []
      ensures t[i].nodeId in t[i].memb
    {
      assert t[i] in Connected(t);
    }
    forall i, j | 0 <= i < |t| && 0 <= j < |t| && t[i].used && t[j].used && t[j].nodeId in t[i].memb
      ensures t[i].nodeId in t[j].memb && ToSet(t[i].memb) == ToSet(t[j].memb)
    {
      ListedPeersAgree(t, i, j);
    }
    forall i, j, k | 0 <= i < |t| && 0 <= j < |t| && 0 <= k < |t| && t[i].used && t[j].used && t[k].used
                     && t[j].nodeId in t[i].memb && t[k].nodeId in t[j].memb
      ensures t[k].nodeId in t[i].memb
    {
      assert t[k].nodeId in ToSet(t[j].memb);
    }
  }

  /** After a decision all ACKed clients form one partition, closed against the NACKed ones. */
  lemma DecisionIsOnePartition(c: Cluster, i: nat, j: nat)
    requires Stable(c.clients) && DistinctNodes(c.clients) && SelfListing(Connected(c.clients))
    requires i < |c.clients| && c.clients[i].used && j < |c.clients| && c.clients[j].used
    requires VoteFor(Chosen(c), c.clients[i].nodeId) == VOTE_ACK
    ensures ToSet(c.clients[i].memb) == ToSet(Chosen(c))
    ensures VoteFor(Chosen(c), c.clients[j].nodeId) == VOTE_ACK ==>
              SameRing(c.clients[i], c.clients[j]) && ToSet(c.clients[i].memb) == ToSet(c.clients[j].memb)
    ensures VoteFor(Chosen(c), c.clients[j].nodeId) == VOTE_NACK ==>
              c.clients[i].nodeId !in c.clients[j].memb
  {
    var t, b := c.clients, Selected(c);
    ListedPeersAgree(t, b, i);
    if VoteFor(Chosen(c), t[j].nodeId) == VOTE_ACK {
      ListedPeersAgree(t, b, j);
    } else {
      assert t[j].nodeId !in ToSet(t[b].memb);
      assert t[j].nodeId !in t[i].memb by {
        assert t[j].nodeId in t[i].memb <==> t[j].nodeId in ToSet(t[i].memb);
      }
      if t[i].nodeId in t[j].memb {
        ListedPeersAgree(t, j, i);
      }
    }
  }

  // ---------- Majority ----------

  lemma RivalsOfMajority(a: Client, w: Client, config: seq<u32>)
    requires Within(a, config) && Within(w, config) && EqualOrDisjoint(a.memb, w.memb)
    requires Majority(w) && (Majority(a) || ExactHalf(a))
    ensures ToSet(a.memb) == ToSet(w.memb)
  {
    if ToSet(a.memb) !! ToSet(w.memb) {
      DisjointListsFit(a.memb, w.memb, config);
      assert false;
    }
  }

  lemma {:induction false} BestUnderMajority(c: Cluster, k: nat, w: nat, config: seq<u32>)
    requires k <= |c.clients| && Partitioned(Connected(c.clients), config)
    requires w < |c.clients| && c.clients[w].used && Majority(c.clients[w])
    ensures BestOf(c, k) >= 0 ==> ToSet(c.clients[BestOf(c, k)].memb) == ToSet(c.clients[w].memb)
    ensures w < k ==> BestOf(c, k) >= 0
  {
    if k > 0 {
      BestUnderMajority(c, k - 1, w, config);
      var t := c.clients;
      if t[k - 1].used && (Majority(t[k - 1]) || ExactHalf(t[k - 1])) {
        assert t[k - 1] in Connected(t) && t[w] in Connected(t);
        RivalsOfMajority(t[k - 1], t[w], config);
      }
    }
  }

  /** A partition with more than half of the shared config is the one selected. */
  lemma MajorityWins(c: Cluster, w: nat, config: seq<u32>)
    requires Partitioned(Connected(c.clients), config)
    requires w < |c.clients| && c.clients[w].used && Majority(c.clients[w])
    ensures ToSet(Chosen(c)) == ToSet(c.clients[w].memb)
    ensures forall id: u32 :: VoteFor(Chosen(c), id) == VOTE_ACK <==> id in c.clients[w].memb
  {
    BestUnderMajority(c, |c.clients|, w, config);
    forall id: u32
      ensures VoteFor(Chosen(c), id) == VOTE_ACK <==> id in c.clients[w].memb
    {
      assert id in Chosen(c) <==> id in ToSet(Chosen(c));
      assert id in c.clients[w].memb <==> id in ToSet(c.clients[w].memb);
    }
  }

  // ---------- The selection is a maximum, whatever the slot order ----------

  /** The documented order: majority, score, active clients, was quorate under
      keep-active, contains the preferred node. */
  datatype Rank = Rank(majority: bool, score: int, active: int, kept: bool, preferred: bool)

  predicate Less(a: Rank, b: Rank) {
    if a.majority != b.majority then b.majority
    else if a.score != b.score then a.score < b.score
    else if a.active != b.active then a.active < b.active
    else if a.kept != b.kept then b.kept
    else !a.preferred && b.preferred
  }

  ghost function RankOf(c: Cluster, i: nat): Rank
    requires i < |c.clients|
  {
    var cl := c.clients[i];
    Rank(Majority(cl), Score(c.clients, cl.memb), Active(c.clients, cl.memb),
         KapOn(c.clients) && cl.nodeId in c.quorate, PreferredInMemb(cl))
  }

  lemma {:induction false} BestHalfIsMaximal(c: Cluster, k: nat, j: nat)
    requires k <= |c.clients| && SelfListing(Connected(c.clients))
    requires forall i :: 0 <= i < |c.clients| && c.clients[i].used ==> !Majority(c.clients[i])
    requires j < k && c.clients[j].used && ReachesHalf(c.clients[j])
    ensures BestOf(c, k) >= 0 && !Less(RankOf(c, BestOf(c, k)), RankOf(c, j))
  {
    BestReachesHalf(c, k);
    var i := k - 1;
    if j < i {
      BestHalfIsMaximal(c, i, j);
    }
  }

  lemma NotLessItself(a: Rank)
    ensures !Less(a, a)
  {}

  lemma NotLessBothWays(a: Rank, b: Rank)
    ensures !(Less(a, b) && Less(b, a))
  {}

  lemma {:induction false} LowestExists(s: seq<u32>) returns (p: u32)
    requires s != []
    ensures p in s && forall x :: x in s ==> p <= x
  {
    p := s[0];
    if |s| > 1 {
      var q := LowestExists(s[1..]);
      p := if s[0] <= q then s[0] else q;
      assert s == [s[0]] + s[1..];
    }
  }

  lemma {:induction false} HighestExists(s: seq<u32>) returns (p: u32)
    requires s != []
    ensures p in s && forall x :: x in s ==> p >= x
  {
    p := s[0];
    if |s| > 1 {
      var q := HighestExists(s[1..]);
      p := if s[0] >= q then s[0] else q;
      assert s == [s[0]] + s[1..];
    }
  }

  lemma NominatedNode(u: set<Client>, mode: u8, node: u32, config: seq<u32>) returns (p: u32)
    requires config != [] && CommonTieBreaker(u, mode, node, config)
    requires forall a :: a in u ==> ToSet(a.cfg) == ToSet(config)
    ensures p in config
    ensures forall a :: a in u ==> forall q: u32 :: Nominated(a, q) <==> q == p
  {
    if mode == TB_NODE_ID {
      p := node;
    } else if mode == TB_LOWEST {
      p := LowestExists(config);
    } else {
      p := HighestExists(config);
    }
    forall a, q: u32 | a in u
      ensures Nominated(a, q) <==> q == p
    {
      assert forall x :: x in a.cfg <==> x in ToSet(a.cfg);
      assert forall x :: x in config <==> x in ToSet(config);
    }
  }

  /** Two disjoint halves cannot have the same rank: one of them holds the preferred node. */
  lemma DisjointHalvesDiffer(a: Client, b: Client, u: set<Client>, mode: u8, node: u32, config: seq<u32>)
    requires a in u && b in u && Partitioned(u, config) && CommonTieBreaker(u, mode, node, config)
    requires ReachesHalf(a) && ReachesHalf(b) && !Majority(a) && !Majority(b)
    requires ToSet(a.memb) != ToSet(b.memb)
    ensures PreferredInMemb(a) != PreferredInMemb(b)
  {
    assert EqualOrDisjoint(a.memb, b.memb);
    DisjointListsFit(a.memb, b.memb, config);
    var p := NominatedNode(u, mode, node, config);
    assert p in ToSet(a.memb) + ToSet(b.memb);
    assert p in a.memb <==> p in ToSet(a.memb);
    assert p in b.memb <==> p in ToSet(b.memb);
    assert Nominated(a, p) && Nominated(b, p);
  }

  /** The selected partition outranks every other partition that reaches half. */
  lemma SelectIsMaximal(c: Cluster, mode: u8, node: u32, config: seq<u32>)
    requires SelfListing(Connected(c.clients)) && Partitioned(Connected(c.clients), config)
    requires CommonTieBreaker(Connected(c.clients), mode, node, config)
    ensures Selected(c) < 0 ==>
              forall j :: 0 <= j < |c.clients| && c.clients[j].used ==> !ReachesHalf(c.clients[j])
    ensures Selected(c) >= 0 ==> ReachesHalf(c.clients[Selected(c)])
    ensures Selected(c) >= 0 ==>
              forall j :: 0 <= j < |c.clients| && c.clients[j].used && ReachesHalf(c.clients[j]) ==>
                ToSet(c.clients[j].memb) == ToSet(Chosen(c)) || Less(RankOf(c, j), RankOf(c, Selected(c)))
  {
    var t, b := c.clients, Selected(c);
    BestReachesHalf(c, |t|);
    if b >= 0 {
      forall j | 0 <= j < |t| && t[j].used && ReachesHalf(t[j])
        ensures ToSet(t[j].memb) == ToSet(Chosen(c)) || Less(RankOf(c, j), RankOf(c, b))
      {
        if w :| 0 <= w < |t| && t[w].used && Majority(t[w]) {
          assert t[j] in Connected(t) && t[w] in Connected(t);
          MajorityWins(c, w, config);
          RivalsOfMajority(t[j], t[w], config);
        } else if ToSet(t[j].memb) != ToSet(t[b].memb) {
          BestHalfIsMaximal(c, |t|, j);
          assert t[j] in Connected(t) && t[b] in Connected(t);
          DisjointHalvesDiffer(t[j], t[b], Connected(t), mode, node, config);
          if !Less(RankOf(c, j), RankOf(c, b)) {
            assert false;
          }
        }
      }
    }
  }

  lemma SameConnectedLookup(t: seq<Client>, t': seq<Client>, id: u32)
    requires DistinctNodes(t) && DistinctNodes(t') && Connected(t) == Connected(t')
    ensures SlotOf(t, id) >= 0 <==> SlotOf(t', id) >= 0
    ensures SlotOf(t, id) >= 0 ==> t[SlotOf(t, id)] == t'[SlotOf(t', id)]
  {
    var k, k' := SlotOf(t, id), SlotOf(t', id);
    if k >= 0 {
      assert t[k] in Connected(t');
      var i :| 0 <= i < |t'| && t'[i].used && t'[i] == t[k];
      assert Holds(t', i, id);
      SlotOfUnique(t', i);
    } else if k' >= 0 {
      assert t'[k'] in Connected(t);
      var i :| 0 <= i < |t| && t[i].used && t[i] == t'[k'];
      assert Holds(t, i, id);
    }
  }

  lemma SameConnectedKap(t: seq<Client>, t': seq<Client>)
    requires Connected(t) == Connected(t') && KapOn(t)
    ensures KapOn(t')
  {
    forall j | 0 <= j < |t'| && t'[j].used
      ensures t'[j].kap
    {
      assert t'[j] in Connected(t);
    }
  }

  ghost predicate SameInput(c: Cluster, c': Cluster) {
    && DistinctNodes(c.clients) && DistinctNodes(c'.clients)
    && Connected(c.clients) == Connected(c'.clients) && ToSet(c.quorate) == ToSet(c'.quorate)
  }

  lemma SameInputRank(c: Cluster, c': Cluster, i: nat, i': nat)
    requires SameInput(c, c')
    requires i < |c.clients| && i' < |c'.clients| && c.clients[i] == c'.clients[i']
    ensures RankOf(c, i) == RankOf(c', i')
  {
    var t, t' := c.clients, c'.clients;
    var m := t[i].memb;
    forall id: u32
      ensures Online(t, id) <==> Online(t', id)
      ensures forall h: u8 :: Reports(t, id, h) <==> Reports(t', id, h)
    {
      SameConnectedLookup(t, t', id);
    }
    CountsDependOnIds(t, t', m, m, |m|, HEUR_PASS);
    CountsDependOnIds(t, t', m, m, |m|, HEUR_FAIL);
    if KapOn(t) { SameConnectedKap(t, t'); }
    if KapOn(t') { SameConnectedKap(t', t); }
    assert t[i].nodeId in c.quorate <==> t[i].nodeId in ToSet(c.quorate);
    assert t[i].nodeId in c'.quorate <==> t[i].nodeId in ToSet(c'.quorate);
  }

  lemma Relocate(c: Cluster, c': Cluster, i: nat) returns (i': nat)
    requires Connected(c.clients) == Connected(c'.clients)
    requires i < |c.clients| && c.clients[i].used
    ensures i' < |c'.clients| && c'.clients[i'] == c.clients[i]
  {
    assert c.clients[i] in Connected(c'.clients);
    i' :| 0 <= i' < |c'.clients| && c'.clients[i'].used && c'.clients[i'] == c.clients[i];
  }

  /** The same clients in any other slots select the same partition. */
  lemma SelectIgnoresSlotOrder(c: Cluster, c': Cluster, mode: u8, node: u32, config: seq<u32>)
    requires SameInput(c, c')
    requires SelfListing(Connected(c.clients)) && Partitioned(Connected(c.clients), config)
    requires CommonTieBreaker(Connected(c.clients), mode, node, config)
    ensures ToSet(Chosen(c)) == ToSet(Chosen(c'))
  {
    SelectIsMaximal(c, mode, node, config);
    SelectIsMaximal(c', mode, node, config);
    var b, b' := Selected(c), Selected(c');
    if b >= 0 {
      var k' := Relocate(c, c', b);
      assert b' >= 0;
      var k := Relocate(c', c, b');
      SameInputRank(c, c', b, k');
      SameInputRank(c, c', k, b');
      assert ReachesHalf(c.clients[k]) && ReachesHalf(c'.clients[k']);
      NotLessBothWays(RankOf(c, k), RankOf(c, b));
    } else if b' >= 0 {
      var k := Relocate(c', c, b');
    }
  }

  const OUTSIDER_X: Client := FreshClient(10).(kap := true, cfg := [1, 2], memb := [2])
  const OUTSIDER_Y: Client := FreshClient(11).(kap := true, cfg := [1, 2], memb := [1])

  lemma NobodyKnows(t: seq<Client>, cl: Client)
    requires |cl.memb| == 1 && forall k :: 0 <= k < |t| ==> t[k].nodeId != cl.memb[0]
    ensures Active(t, cl.memb) == 0 && Score(t, cl.memb) == 0
  {
    assert !Online(t, cl.memb[0]);
    assert ActiveUpTo(t, cl.memb, 0) == 0;
    assert HeurUpTo(t, cl.memb, 0, HEUR_PASS) == 0 && HeurUpTo(t, cl.memb, 0, HEUR_FAIL) == 0;
    assert HeurUpTo(t, cl.memb, 1, HEUR_PASS) == 0 && HeurUpTo(t, cl.memb, 1, HEUR_FAIL) == 0;
  }

  predicate Outsiders(t: seq<Client>) {
    t == Padded([OUTSIDER_X, OUTSIDER_Y]) || t == Padded([OUTSIDER_Y, OUTSIDER_X])
  }

  lemma OutsidersTie(t: seq<Client>)
    requires Outsiders(t)
    ensures Connected(t) == {OUTSIDER_X, OUTSIDER_Y} && DistinctNodes(t) && KapOn(t)
    ensures Score(t, [1]) == 0 && Active(t, [1]) == 0 && Score(t, [2]) == 0 && Active(t, [2]) == 0
    ensures !PreferredInMemb(OUTSIDER_X) && PreferredInMemb(OUTSIDER_Y)
  {
    NobodyKnows(t, OUTSIDER_X);
    NobodyKnows(t, OUTSIDER_Y);
    assert t[0] in Connected(t) && t[1] in Connected(t);
    assert 1 in OUTSIDER_Y.memb && Nominated(OUTSIDER_Y, 1);
    assert forall p :: p in OUTSIDER_X.memb ==> p == 2;
  }

  lemma {:induction false} OutsidersSelection(c: Cluster, k: nat)
    requires Outsiders(c.clients) && c.quorate == [10] && 2 <= k <= MAX_CLIENTS
    ensures BestOf(c, k) == 1
  {
    if k > 2 {
      OutsidersSelection(c, k - 1);
    } else {
      OutsidersTie(c.clients);
      assert BestOf(c, 0) == -1;
      assert BestOf(c, 1) == if c.clients[0] == OUTSIDER_X then -1 else 0;
    }
  }

  /** Self-listing is needed: two clients that report a half they are not in are
      selected by slot order. */
  lemma OrderMattersWithoutSelfListing()
    ensures exists c: Cluster, c': Cluster ::
              |c.clients| == |c'.clients| == MAX_CLIENTS
              && SameInput(c, c') && Partitioned(Connected(c.clients), [1, 2])
              && CommonTieBreaker(Connected(c.clients), TB_LOWEST, 0, [1, 2])
              && Chosen(c) == [1] && Chosen(c') == [2]
  {
    var c, c' := Cluster(Padded([OUTSIDER_X, OUTSIDER_Y]), [10]), Cluster(Padded([OUTSIDER_Y, OUTSIDER_X]), [10]);
    OutsidersTie(c.clients);
    OutsidersTie(c'.clients);
    OutsidersSelection(c, MAX_CLIENTS);
    OutsidersSelection(c', MAX_CLIENTS);
    assert Partitioned({OUTSIDER_X, OUTSIDER_Y}, [1, 2]) by {
      assert ToSet([1, 2]) == {1, 2} && ToSet(OUTSIDER_X.memb) == {2} && ToSet(OUTSIDER_Y.memb) == {1};
    }
    assert SameInput(c, c') && Chosen(c) == [1] && Chosen(c') == [2];
  }

  // ---------- An empty config ----------

  lemma StableSharesEmptiness(t: seq<Client>, i: nat, j: nat)
    requires Stable(t) && i < |t| && j < |t| && t[i].used && t[j].used
    ensures t[i].cfg == [] <==> t[j].cfg == []
  {
    assert StableSlot(t, i) && StableSlot(t, j);
  }

  /** "More than half of the config" says nothing about an empty config: then any reported
      membership counts as more than half, and somebody is granted the vote -- exactly when a
      client without a config reports a membership. */
  lemma EmptyConfigExactly(c: Cluster)
    requires Stable(c.clients) && SelfListing(Connected(c.clients))
    ensures (exists i :: 0 <= i < |c.clients| && c.clients[i].used && c.clients[i].cfg == []
                         && VoteFor(Chosen(c), c.clients[i].nodeId) == VOTE_ACK)
            <==>
            (exists i :: 0 <= i < |c.clients| && c.clients[i].used && c.clients[i].cfg == []
                         && c.clients[i].memb != [])
  {
    var t, b := c.clients, Selected(c);
    BestReachesHalf(c, |t|);
    if i :| 0 <= i < |t| && t[i].used && t[i].cfg == [] {
      if b >= 0 {
        assert t[b] in Connected(t);
        StableSharesEmptiness(t, i, b);
        assert VoteFor(Chosen(c), t[b].nodeId) == VOTE_ACK;
      }
    }
  }

  /** Without configs the last reporter in slot order is selected. */
  lemma {:induction false} LastReporterWins(c: Cluster, k: nat, i: nat)
    requires i < k <= |c.clients| && SelfListing(Connected(c.clients))
    requires forall j :: 0 <= j < |c.clients| && c.clients[j].used ==> c.clients[j].cfg == []
    requires c.clients[i].used && c.clients[i].memb != []
    requires forall j :: i < j < k && c.clients[j].used ==> c.clients[j].memb == []
    ensures BestOf(c, k) == i
  {
    if i < k - 1 {
      LastReporterWins(c, k - 1, i);
      if c.clients[k - 1].used {
        assert c.clients[i] in Connected(c.clients) && c.clients[k - 1] in Connected(c.clients);
        WinnerReachesHalf(c, k - 1, i);
      }
    }
  }

  function Lonely(id: u32): Client {
    FreshClient(id).(memb := [id], hasRing := true, ringNode := id, ringSeq := 10)
  }

  lemma LonelyStable(t: seq<Client>, a: u32, b: u32)
    requires a != b && t == Padded([Lonely(a), Lonely(b)])
    ensures Stable(t) && DistinctNodes(t) && Connected(t) == {Lonely(a), Lonely(b)} && SelfListing(Connected(t))
  {
    assert t[0] in Connected(t) && t[1] in Connected(t);
    SlotOfUnique(t, 0);
    SlotOfUnique(t, 1);
    forall i | 0 <= i < |t| && t[i].used
      ensures StableSlot(t, i)
    {
      assert i == 0 || i == 1;
    }
  }

  /** A client that reported a membership but never a config is granted the vote. */
  lemma EmptyConfigIsGranted()
    ensures exists c: Cluster ::
              |c.clients| == MAX_CLIENTS && Stable(c.clients) && SelfListing(Connected(c.clients))
              && c.clients[0].used && c.clients[0].cfg == [] && VoteFor(Chosen(c), c.clients[0].nodeId) == VOTE_ACK
  {
    var t := Padded([Lonely(1)]);
    assert t[0] in Connected(t);
    SlotOfUnique(t, 0);
    LoneHalfWins(Cluster(t, []), 0);
    assert Stable(Cluster(t, []).clients);
  }

  /** Two stable, self-listing tables with the same clients and no config: slot order alone
      decides between two disjoint partitions. */
  lemma OrderMattersWithoutConfig()
    ensures exists c: Cluster, c': Cluster ::
              |c.clients| == |c'.clients| == MAX_CLIENTS && SameInput(c, c')
              && Stable(c.clients) && Stable(c'.clients) && SelfListing(Connected(c.clients))
              && Chosen(c) == [2] && Chosen(c') == [1]
  {
    var c, c' := Cluster(Padded([Lonely(1), Lonely(2)]), []), Cluster(Padded([Lonely(2), Lonely(1)]), []);
    LonelyStable(c.clients, 1, 2);
    LonelyStable(c'.clients, 2, 1);
    LastReporterWins(c, MAX_CLIENTS, 1);
    LastReporterWins(c', MAX_CLIENTS, 1);
    assert SameInput(c, c') && Chosen(c) == [2] && Chosen(c') == [1];
  }

  predicate Reporter(cl: Client) {
    cl.used && cl.memb != []
  }

  /** The last reporter, or -1. */
  function LastReporter(t: seq<Client>, k: nat): (r: int)
    requires k <= |t|
    ensures -1 <= r < k
    ensures r >= 0 ==> Reporter(t[r])
    ensures forall j :: r < j < k ==> !Reporter(t[j])
  {
    if k == 0 then -1 else if Reporter(t[k - 1]) then k - 1 else LastReporter(t, k - 1)
  }

  predicate NoConfig(t: seq<Client>) {
    forall j :: 0 <= j < |t| && t[j].used ==> t[j].cfg == []
  }

  lemma NoConfigSelects(c: Cluster)
    requires SelfListing(Connected(c.clients)) && NoConfig(c.clients)
    ensures Selected(c) == LastReporter(c.clients, |c.clients|)
  {
    var b := LastReporter(c.clients, |c.clients|);
    BestReachesHalf(c, |c.clients|);
    if b >= 0 { LastReporterWins(c, |c.clients|, b); }
  }

  lemma SwapSlots(c: Cluster, i: nat, b: nat) returns (c': Cluster)
    requires DistinctNodes(c.clients) && i < b < |c.clients|
    ensures c'.clients == c.clients[i := c.clients[b]][b := c.clients[i]] && SameInput(c, c')
  {
    var t := c.clients;
    var t' := t[i := t[b]][b := t[i]];
    c' := Cluster(t', c.quorate);
    forall cl | cl in Connected(t)
      ensures cl in Connected(t')
    {
      var k :| 0 <= k < |t| && t[k].used && t[k] == cl;
      var k' := if k == i then b else if k == b then i else k;
      assert t'[k'] == cl;
    }
    forall cl | cl in Connected(t')
      ensures cl in Connected(t)
    {
      var k :| 0 <= k < |t'| && t'[k].used && t'[k] == cl;
      var k' := if k == i then b else if k == b then i else k;
      assert t[k'] == cl;
    }
  }

  /** Without configs, every reordering of the slots selects the same set exactly when all
      reporting clients list the same set. */
  lemma NoConfigOrderExactly(c: Cluster)
    requires SelfListing(Connected(c.clients)) && DistinctNodes(c.clients) && NoConfig(c.clients)
    ensures (forall c': Cluster :: SameInput(c, c') ==> ToSet(Chosen(c')) == ToSet(Chosen(c)))
            <==>
            (forall i, j :: 0 <= i < |c.clients| && 0 <= j < |c.clients|
                            && Reporter(c.clients[i]) && Reporter(c.clients[j]) ==>
               ToSet(c.clients[i].memb) == ToSet(c.clients[j].memb))
  {
    var t := c.clients;
    var b := LastReporter(t, |t|);
    NoConfigSelects(c);
    if i :| 0 <= i < |t| && Reporter(t[i]) && ToSet(t[i].memb) != ToSet(Chosen(c)) {
      var c' := SwapSlots(c, i, b);
      assert forall k :: b < k < |t| ==> c'.clients[k] == t[k];
      NoConfigSelects(c');
      assert Reporter(c'.clients[b]) && Chosen(c') == t[i].memb;
      assert !(ToSet(Chosen(c')) == ToSet(Chosen(c)));
      assert Reporter(t[b]);
    } else {
      forall c': Cluster | SameInput(c, c')
        ensures ToSet(Chosen(c')) == ToSet(Chosen(c))
      {
        SameReporters(c, c');
      }
    }
  }

  lemma SameReporters(c: Cluster, c': Cluster)
    requires SelfListing(Connected(c.clients)) && NoConfig(c.clients) && SameInput(c, c')
    requires forall i :: 0 <= i < |c.clients| && Reporter(c.clients[i]) ==>
               ToSet(c.clients[i].memb) == ToSet(Chosen(c))
    ensures ToSet(Chosen(c')) == ToSet(Chosen(c))
  {
    forall j | 0 <= j < |c'.clients| && c'.clients[j].used
      ensures c'.clients[j].cfg == []
    {
      var k := Relocate(c', c, j);
    }
    NoConfigSelects(c);
    NoConfigSelects(c');
    var b, b' := Selected(c), Selected(c');
    if b >= 0 {
      var k' := Relocate(c, c', b);
      assert Reporter(c'.clients[k']);
      assert b' >= 0;
    }
    if b' >= 0 {
      var k := Relocate(c', c, b');
      assert Reporter(c.clients[k]);
    }
  }
}
