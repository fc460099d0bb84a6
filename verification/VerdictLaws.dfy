/** Whom LMS grants: the vote of a caller, tier by tier, in terms of the rings of the
    connected clients, their sizes and their heuristics. */
module VerdictLaws {
  import opened Defs
  import opened FFSplit
  import opened FFSplitLaws
  import opened Lms
  import opened LmsLaws

  // ---------- Rings, by the fields of the clients ----------

  predicate OnOneRing(a: Client, b: Client) {
    a.ringNode == b.ringNode && a.ringSeq == b.ringSeq
  }

  predicate Reporting(t: seq<Client>, i: int) {
    0 <= i < |t| && t[i].used && t[i].ringSeq != 0
  }

  /** Clients on the ring of `cl`. */
  function SizeOn(t: seq<Client>, cl: Client): nat {
    GroupSize(t, |t|, cl.ringNode, cl.ringSeq)
  }

  /** Their number, plus the passed and minus the failed heuristics among them. */
  function ScoreOn(t: seq<Client>, cl: Client): int {
    SizeOn(t, cl) + GroupHeur(t, |t|, cl.ringNode, cl.ringSeq, HEUR_PASS)
                  - GroupHeur(t, |t|, cl.ringNode, cl.ringSeq, HEUR_FAIL)
  }

  /** Whoever the caller lists, or is listed by, is on its ring. */
  predicate PeersOnRing(t: seq<Client>, i: nat)
    requires i < |t|
  {
    forall j :: 0 <= j < |t| && j != i && t[j].used && (t[j].nodeId in t[i].memb || t[i].nodeId in t[j].memb) ==>
      OnOneRing(t[i], t[j])
  }

  ghost predicate TwoRings(t: seq<Client>) {
    exists i, j :: Reporting(t, i) && Reporting(t, j) && !OnOneRing(t[i], t[j])
  }

  /** The caller never voted, and another ring holds a saved ACK. */
  ghost predicate FacesGrant(t: seq<Client>, i: nat, last: seq<u8>)
    requires i < |t| == |last|
  {
    last[i] == 0 && exists j :: 0 <= j < |t| && j != i && t[j].used && !OnOneRing(t[i], t[j]) && last[j] == VOTE_ACK
  }

  /** The decision is between several rings. */
  ghost predicate Contested(t: seq<Client>, i: nat, last: seq<u8>)
    requires i < |t| == |last|
  {
    PeersOnRing(t, i) && TwoRings(t) && !FacesGrant(t, i, last)
  }

  /** The ring of client `w` has strictly the highest score. */
  ghost predicate TopScore(t: seq<Client>, w: int) {
    Reporting(t, w)
    && forall j :: Reporting(t, j) && !OnOneRing(t[j], t[w]) ==> ScoreOn(t, t[j]) < ScoreOn(t, t[w])
  }

  /** The ring of client `w` is strictly the largest. */
  ghost predicate TopSize(t: seq<Client>, w: int) {
    Reporting(t, w)
    && forall j :: Reporting(t, j) && !OnOneRing(t[j], t[w]) ==> SizeOn(t, t[j]) < SizeOn(t, t[w])
  }

  function GrantIf(b: bool): u8 {
    if b then VOTE_ACK else VOTE_NACK
  }

  // ---------- The groups are the rings ----------

  lemma {:induction false} GroupsInhabited(t: seq<Client>, k: nat, g: nat) returns (s: nat)
    requires k <= |t| && g < |PartsUpTo(t, k)|
    ensures s < k && Reporting(t, s)
    ensures PartsUpTo(t, k)[g].ringNode == t[s].ringNode && PartsUpTo(t, k)[g].ringSeq == t[s].ringSeq
  {
    var parts := PartsUpTo(t, k - 1);
    if g < |parts| {
      s := GroupsInhabited(t, k - 1, g);
    } else {
      s := k - 1;
    }
  }

  lemma GroupAt(t: seq<Client>, s: nat) returns (g: nat)
    requires Reporting(t, s)
    ensures g < |PartsOf(t)| && PartsOf(t)[g].score == ScoreOn(t, t[s]) && PartsOf(t)[g].count == SizeOn(t, t[s])
    ensures PartsOf(t)[g].ringNode == t[s].ringNode && PartsOf(t)[g].ringSeq == t[s].ringSeq
  {
    GroupsUpTo(t, |t|);
    g := GroupFrom(PartsOf(t), t[s], 0);
    assert Exact(t, |t|, PartsOf(t)[g]);
  }

  lemma GroupsCounted(t: seq<Client>)
    ensures PartsOf(t) == [] <==> forall i :: !Reporting(t, i)
    ensures |PartsOf(t)| > 1 <==> TwoRings(t)
  {
    GroupsUpTo(t, |t|);
    var parts := PartsOf(t);
    if |parts| > 0 { var s := GroupsInhabited(t, |t|, 0); }
    if |parts| > 1 {
      var a := GroupsInhabited(t, |t|, 0);
      var b := GroupsInhabited(t, |t|, 1);
      assert Reporting(t, a) && Reporting(t, b) && !OnOneRing(t[a], t[b]);
    }
    if i, j :| Reporting(t, i) && Reporting(t, j) && !OnOneRing(t[i], t[j]) {
      var g := GroupAt(t, i);
      var h := GroupAt(t, j);
      assert g != h;
    }
    if i :| Reporting(t, i) { var g := GroupAt(t, i); }
  }

  lemma ScoreTier(t: seq<Client>)
    ensures var parts, best := PartsOf(t), Tier(Scores(PartsOf(t)));
            if best >= 0 then
              best < |parts|
              && exists w :: TopScore(t, w) && parts[best].ringNode == t[w].ringNode
                             && parts[best].ringSeq == t[w].ringSeq
            else forall w :: !TopScore(t, w)
  {
    GroupsUpTo(t, |t|);
    var parts, best := PartsOf(t), Tier(Scores(PartsOf(t)));
    if best >= 0 {
      var w := GroupsInhabited(t, |t|, best);
      TopGroupIsTopScore(t, best, w);
    } else {
      forall w
        ensures !TopScore(t, w)
      {
        if TopScore(t, w) { TopScoreIsTopGroup(t, w); }
      }
    }
  }

  lemma TopGroupIsTopScore(t: seq<Client>, b: nat, w: nat)
    requires UniqueMax(Scores(PartsOf(t)), b) && Reporting(t, w)
    requires PartsOf(t)[b].ringNode == t[w].ringNode && PartsOf(t)[b].ringSeq == t[w].ringSeq
    ensures TopScore(t, w)
  {
    GroupsUpTo(t, |t|);
    var g := GroupAt(t, w);
    assert g == b;
    forall j | Reporting(t, j) && !OnOneRing(t[j], t[w])
      ensures ScoreOn(t, t[j]) < ScoreOn(t, t[w])
    {
      var h := GroupAt(t, j);
      assert Scores(PartsOf(t))[h] < Scores(PartsOf(t))[b];
    }
  }

  lemma TopScoreIsTopGroup(t: seq<Client>, w: nat)
    requires TopScore(t, w)
    ensures exists b :: UniqueMax(Scores(PartsOf(t)), b)
  {
    GroupsUpTo(t, |t|);
    var parts := PartsOf(t);
    var b := GroupAt(t, w);
    forall i | 0 <= i < |parts| && i != b
      ensures parts[i].score < parts[b].score
    {
      var s := GroupsInhabited(t, |t|, i);
      var g := GroupAt(t, s);
      assert g == i;
    }
    assert UniqueMax(Scores(parts), b);
  }

  lemma SizeTier(t: seq<Client>)
    ensures var parts, big := PartsOf(t), Tier(Counts(PartsOf(t)));
            if big >= 0 then
              big < |parts|
              && exists w :: TopSize(t, w) && parts[big].ringNode == t[w].ringNode
                             && parts[big].ringSeq == t[w].ringSeq
            else forall w :: !TopSize(t, w)
  {
    GroupsUpTo(t, |t|);
    var parts, big := PartsOf(t), Tier(Counts(PartsOf(t)));
    if big >= 0 {
      var w := GroupsInhabited(t, |t|, big);
      TopGroupIsTopSize(t, big, w);
    } else {
      forall w
        ensures !TopSize(t, w)
      {
        if TopSize(t, w) { TopSizeIsTopGroup(t, w); }
      }
    }
  }

  lemma TopGroupIsTopSize(t: seq<Client>, b: nat, w: nat)
    requires UniqueMax(Counts(PartsOf(t)), b) && Reporting(t, w)
    requires PartsOf(t)[b].ringNode == t[w].ringNode && PartsOf(t)[b].ringSeq == t[w].ringSeq
    ensures TopSize(t, w)
  {
    GroupsUpTo(t, |t|);
    var g := GroupAt(t, w);
    assert g == b;
    forall j | Reporting(t, j) && !OnOneRing(t[j], t[w])
      ensures SizeOn(t, t[j]) < SizeOn(t, t[w])
    {
      var h := GroupAt(t, j);
      assert Counts(PartsOf(t))[h] < Counts(PartsOf(t))[b];
    }
  }

  lemma TopSizeIsTopGroup(t: seq<Client>, w: nat)
    requires TopSize(t, w)
    ensures exists b :: UniqueMax(Counts(PartsOf(t)), b)
  {
    GroupsUpTo(t, |t|);
    var parts := PartsOf(t);
    var b := GroupAt(t, w);
    forall i | 0 <= i < |parts| && i != b
      ensures parts[i].count < parts[b].count
    {
      var s := GroupsInhabited(t, |t|, i);
      var g := GroupAt(t, s);
      assert g == i;
    }
    assert UniqueMax(Counts(parts), b);
  }

  // ---------- The verdict ----------

  lemma TopsShareRing(t: seq<Client>, v: int, w: int)
    ensures TopScore(t, v) && TopScore(t, w) ==> OnOneRing(t[v], t[w])
    ensures TopSize(t, v) && TopSize(t, w) ==> OnOneRing(t[v], t[w])
  {
    hide ScoreOn, SizeOn;
  }

  lemma ContestedByTiers(t: seq<Client>, i: nat, last: seq<u8>)
    requires i < |t| == |last|
    ensures Contested(t, i, last) ==> Vote(t, i, last) == TieredVote(t, t[i])
  {
    hide TieredVote;
    GroupsCounted(t);
  }

  /** Without a contest: wait while peers are on another ring or nobody has one, grant next to
      a single ring, and refuse a newcomer that faces a grant. */
  lemma UncontestedVerdict(t: seq<Client>, i: nat, last: seq<u8>)
    requires i < |t| == |last|
    ensures var v := Vote(t, i, last);
            && (!PeersOnRing(t, i) || (forall j :: !Reporting(t, j)) ==> v == VOTE_WAIT_FOR_REPLY)
            && (PeersOnRing(t, i) && !TwoRings(t) && (exists j :: Reporting(t, j)) ==> v == VOTE_ACK)
            && (PeersOnRing(t, i) && TwoRings(t) && FacesGrant(t, i, last) ==> v == VOTE_NACK)
  {
    hide TieredVote;
    GroupsCounted(t);
  }

  /** The ring with strictly the highest score is granted, every other one is refused. */
  lemma TopScoreIsGranted(t: seq<Client>, i: nat, last: seq<u8>, w: nat)
    requires i < |t| == |last| && Contested(t, i, last) && TopScore(t, w)
    ensures Vote(t, i, last) == GrantIf(OnOneRing(t[i], t[w]))
  {
    hide ScoreOn, SizeOn, TieBreakVote, Contested, Vote;
    ContestedByTiers(t, i, last);
    ScoreTier(t);
    var best := Tier(Scores(PartsOf(t)));
    assert 0 <= best < |PartsOf(t)|;
    var v :| TopScore(t, v) && PartsOf(t)[best].ringNode == t[v].ringNode && PartsOf(t)[best].ringSeq == t[v].ringSeq;
    TopsShareRing(t, v, w);
  }

  /** On a shared highest score, strictly the largest ring is granted. */
  lemma TopSizeIsGranted(t: seq<Client>, i: nat, last: seq<u8>, w: nat)
    requires i < |t| == |last| && Contested(t, i, last)
    requires (forall v :: !TopScore(t, v)) && TopSize(t, w)
    ensures Vote(t, i, last) == GrantIf(OnOneRing(t[i], t[w]))
  {
    hide ScoreOn, SizeOn, TieBreakVote, Contested, Vote;
    ContestedByTiers(t, i, last);
    ScoreTier(t);
    SizeTier(t);
    var big := Tier(Counts(PartsOf(t)));
    assert 0 <= big < |PartsOf(t)|;
    var v :| TopSize(t, v) && PartsOf(t)[big].ringNode == t[v].ringNode && PartsOf(t)[big].ringSeq == t[v].ringSeq;
    TopsShareRing(t, v, w);
  }

  lemma LevelIsTieBroken(t: seq<Client>, i: nat, last: seq<u8>)
    requires i < |t| == |last| && Contested(t, i, last)
    requires forall v :: !TopScore(t, v) && !TopSize(t, v)
    ensures Vote(t, i, last) == TieBreakVote(t, t[i])
  {
    hide ScoreOn, SizeOn, TieBreakVote, Contested, Vote;
    ContestedByTiers(t, i, last);
    ScoreTier(t);
    SizeTier(t);
  }

  /** With the sizes shared too, the ring of the lowest (or highest) connected node is
      granted; a tie-breaker that names a node grants that node alone. */
  lemma TieBreakerIsGranted(t: seq<Client>, i: nat, last: seq<u8>, p: nat)
    requires DistinctNodes(t) && i < |t| == |last| && t[i].used && Contested(t, i, last)
    requires forall v :: !TopScore(t, v) && !TopSize(t, v)
    requires p < |t| && t[p].used
    ensures var v := Vote(t, i, last);
            && (t[i].tbMode == TB_LOWEST && (forall j :: 0 <= j < |t| && t[j].used ==> t[p].nodeId <= t[j].nodeId) ==>
                  v == GrantIf(OnOneRing(t[i], t[p])))
            && (t[i].tbMode == TB_HIGHEST && (forall j :: 0 <= j < |t| && t[j].used ==> t[j].nodeId <= t[p].nodeId) ==>
                  v == GrantIf(OnOneRing(t[i], t[p])))
            && (t[i].tbMode == TB_NODE_ID ==> v == GrantIf(t[i].nodeId == t[i].tbNode))
            && (t[i].tbMode != TB_LOWEST && t[i].tbMode != TB_HIGHEST && t[i].tbMode != TB_NODE_ID ==>
                  v == VOTE_WAIT_FOR_REPLY)
  {
    LevelIsTieBroken(t, i, last);
    hide Vote, Contested, ScoreOn, SizeOn;
    if t[i].tbMode == TB_LOWEST && (forall j :: 0 <= j < |t| && t[j].used ==> t[p].nodeId <= t[j].nodeId) {
      ExtremeIsGranted(t, i, p);
    }
    if t[i].tbMode == TB_HIGHEST && (forall j :: 0 <= j < |t| && t[j].used ==> t[j].nodeId <= t[p].nodeId) {
      ExtremeIsGranted(t, i, p);
    }
  }

  lemma ExtremeIsGranted(t: seq<Client>, i: nat, p: nat)
    requires DistinctNodes(t) && i < |t| && t[i].used && p < |t| && t[p].used
    requires t[i].tbMode == TB_LOWEST || t[i].tbMode == TB_HIGHEST
    requires forall j :: 0 <= j < |t| && t[j].used ==>
               if t[i].tbMode == TB_LOWEST then t[p].nodeId <= t[j].nodeId else t[j].nodeId <= t[p].nodeId
    ensures TieBreakVote(t, t[i]) == GrantIf(OnOneRing(t[i], t[p]))
  {
    var id := t[p].nodeId;
    SlotOfUnique(t, p);
    SlotOfUnique(t, i);
    assert Extreme(t, t[i].tbMode, id);
    forall x: u32 | Extreme(t, t[i].tbMode, x)
      ensures x == id
    {
      assert t[SlotOf(t, x)].nodeId == x;
    }
  }
}
