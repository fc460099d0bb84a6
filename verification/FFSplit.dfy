/** FFSplit decision core (firmware/quorum/ffsplit.c): the client table, the
    stability check, the "better partition" comparison, the selection fold and the
    decision. Each method is proved against a specification function on the table's
    value; FFSplitLaws proves what those functions promise. */
module FFSplit {
  import opened Defs
  import opened Lists

  const MAX_CLIENTS: nat := 8
  const MAX_NODES: nat := 32

  // Width of `size_t` on the target: score arithmetic wraps modulo this.
  const SIZE_MODULUS: nat := 0x1_0000_0000

  /** A `uint32_t ids[32]` buffer with its element count. */
  type Ids = s: seq<u32> | |s| <= MAX_NODES

  datatype Client = Client(
    used: bool, nodeId: u32,
    tbMode: u8, tbNode: u32, kap: bool,
    cfg: Ids, memb: Ids,
    ringNode: u32, ringSeq: u64, hasRing: bool,
    heur: u8)

  datatype Cluster = Cluster(clients: seq<Client>, quorate: Ids)

  const EMPTY_SLOT := Client(false, 0, 0, 0, false, [], [], 0, 0, false, HEUR_UNDEFINED)

  function FreshClient(id: u32): Client {
    EMPTY_SLOT.(used := true, nodeId := id, tbMode := TB_LOWEST)
  }

  // ---------- Specification: lookup ----------

  predicate Holds(t: seq<Client>, k: int, id: u32)
    requires 0 <= k < |t|
  {
    t[k].used && t[k].nodeId == id
  }

  /** First connected slot at or after `from` that carries node `id`, or -1. */
  function SlotFrom(t: seq<Client>, id: u32, from: nat): (r: int)
    requires from <= |t|
    ensures r == -1 || from <= r < |t|
    ensures r >= 0 ==> Holds(t, r, id) && forall k :: from <= k < r ==> !Holds(t, k, id)
    ensures r < 0 ==> forall k :: from <= k < |t| ==> !Holds(t, k, id)
    decreases |t| - from
  {
    if from == |t| then -1
    else if Holds(t, from, id) then from
    else SlotFrom(t, id, from + 1)
  }

  function SlotOf(t: seq<Client>, id: u32): (r: int)
    ensures -1 <= r < |t|
    ensures r >= 0 ==> Holds(t, r, id) && forall k :: 0 <= k < r ==> !Holds(t, k, id)
    ensures r < 0 ==> forall k :: 0 <= k < |t| ==> !Holds(t, k, id)
  {
    SlotFrom(t, id, 0)
  }

  // ---------- Specification: score of a membership list ----------

  predicate Online(t: seq<Client>, id: u32) {
    SlotOf(t, id) >= 0
  }

  predicate Reports(t: seq<Client>, id: u32, h: u8) {
    Online(t, id) && t[SlotOf(t, id)].heur == h
  }

  /** Connected members among the first `n` of `m`. */
  function ActiveUpTo(t: seq<Client>, m: seq<u32>, n: nat): nat
    requires n <= |m|
  {
    if n == 0 then 0
    else ActiveUpTo(t, m, n - 1) + if Online(t, m[n - 1]) then 1 else 0
  }

  /** Connected members among the first `n` of `m` whose heuristics result is `h`. */
  function HeurUpTo(t: seq<Client>, m: seq<u32>, n: nat, h: u8): nat
    requires n <= |m|
  {
    if n == 0 then 0
    else HeurUpTo(t, m, n - 1, h) + if Reports(t, m[n - 1], h) then 1 else 0
  }

  function Active(t: seq<Client>, m: seq<u32>): nat {
    ActiveUpTo(t, m, |m|)
  }

  /** active + passes - fails, as a true integer. */
  function Score(t: seq<Client>, m: seq<u32>): int {
    Active(t, m) + HeurUpTo(t, m, |m|, HEUR_PASS) - HeurUpTo(t, m, |m|, HEUR_FAIL)
  }

  lemma {:induction false} HeurWithinActive(t: seq<Client>, m: seq<u32>, n: nat)
    requires n <= |m|
    ensures HeurUpTo(t, m, n, HEUR_PASS) + HeurUpTo(t, m, n, HEUR_FAIL) <= ActiveUpTo(t, m, n) <= n
  {
    if n > 0 {
      HeurWithinActive(t, m, n - 1);
    }
  }

  /** `a_act + (a_pass - a_fail)` in unsigned arithmetic modulo `modulus`. */
  function WrappedScore(active: nat, pass: nat, fail: nat, modulus: int): int
    requires modulus > 0
  {
    (active + (pass - fail) % modulus) % modulus
  }

  /** The inner subtraction wraps when fail > pass, yet the sum is the true score. */
  lemma WrappedScoreExact(t: seq<Client>, m: seq<u32>, modulus: int)
    requires 2 * |m| < modulus
    ensures WrappedScore(Active(t, m), HeurUpTo(t, m, |m|, HEUR_PASS), HeurUpTo(t, m, |m|, HEUR_FAIL), modulus)
            == Score(t, m)
    ensures 0 <= Score(t, m) <= 2 * Active(t, m)
  {
    HeurWithinActive(t, m, |m|);
    var d := HeurUpTo(t, m, |m|, HEUR_PASS) - HeurUpTo(t, m, |m|, HEUR_FAIL);
    if d < 0 {
      ModOfNegative(d, modulus);
      ModOfExcess(Active(t, m) + d + modulus, modulus);
    } else {
      ModOfSmall(d, modulus);
      ModOfSmall(Active(t, m) + d, modulus);
    }
  }

  lemma ModOfSmall(x: int, m: int)
    requires 0 <= x < m
    ensures x % m == x
  {}

  lemma ModOfNegative(x: int, m: int)
    requires -m <= x < 0
    ensures x % m == x + m || x + m == 0
    ensures x > -m ==> x % m == x + m
  {
    DivUnique(x, m, -1);
  }

  lemma ModOfExcess(x: int, m: int)
    requires 0 < m <= x < 2 * m
    ensures x % m == x - m
  {
    DivUnique(x, m, 1);
  }

  lemma MulAtLeast(e: int, m: int)
    requires e >= 1 && m > 0
    ensures e * m >= m && (-e) * m <= -m
  {}

  lemma DivUnique(x: int, m: int, q: int)
    requires 0 < m && 0 <= x - q * m < m
    ensures x / m == q && x % m == x - q * m
  {
    var r := x - q * m;
    var e := x / m - q;
    assert e * m + x % m == r by {
      assert x == (x / m) * m + x % m;
      assert e * m == (x / m) * m - q * m;
    }
    assert -m < e * m < m;
    assert e == 0 by {
      if e >= 1 { MulAtLeast(e, m); assert false; }
      if e <= -1 { MulAtLeast(-e, m); assert false; }
    }
  }

  // ---------- Specification: comparison and selection ----------

  /** `p` is the node the tie-breaker of `cl` nominates. */
  ghost predicate Nominated(cl: Client, p: u32) {
    if cl.tbMode == TB_NODE_ID then p == cl.tbNode
    else if cl.tbMode == TB_LOWEST then p in cl.cfg && forall x :: x in cl.cfg ==> p <= x
    else if cl.tbMode == TB_HIGHEST then p in cl.cfg && forall x :: x in cl.cfg ==> p >= x
    else false
  }

  ghost predicate PreferredInMemb(cl: Client) {
    cl.cfg != [] && exists p :: p in cl.memb && Nominated(cl, p)
  }

  predicate KapOn(t: seq<Client>) {
    forall j :: 0 <= j < |t| && t[j].used ==> t[j].kap
  }

  predicate Majority(cl: Client) {
    2 * |cl.memb| > |cl.cfg|
  }

  predicate ExactHalf(cl: Client) {
    2 * |cl.memb| == |cl.cfg|
  }

  /** Slot `i` beats the current best slot (`best < 0`: none yet). */
  ghost predicate Beats(c: Cluster, i: nat, best: int)
    requires i < |c.clients| && best < |c.clients|
  {
    var a := c.clients[i];
    Majority(a) || (ExactHalf(a) && TieBeats(c, i, best))
  }

  function SideActive(c: Cluster, i: int): nat
    requires i < |c.clients|
  {
    if i < 0 then 0 else Active(c.clients, c.clients[i].memb)
  }

  function SideScore(c: Cluster, i: int): int
    requires i < |c.clients|
  {
    if i < 0 then 0 else Score(c.clients, c.clients[i].memb)
  }

  /** A 50:50 split: score, then active clients, then keep-active, then tie-breaker. */
  ghost predicate TieBeats(c: Cluster, i: nat, best: int)
    requires i < |c.clients| && best < |c.clients|
  {
    if SideScore(c, i) != SideScore(c, best) then SideScore(c, i) > SideScore(c, best)
    else if SideActive(c, i) != SideActive(c, best) then SideActive(c, i) > SideActive(c, best)
    else TieSettled(c, i, best)
  }

  ghost predicate TieSettled(c: Cluster, i: nat, best: int)
    requires i < |c.clients| && best < |c.clients|
  {
    var a := c.clients[i];
    if best >= 0 && KapOn(c.clients)
       && (a.nodeId in c.quorate) != (c.clients[best].nodeId in c.quorate)
    then a.nodeId in c.quorate
    else PreferredInMemb(a)
  }

  /** Best slot after folding the first `k` slots, or -1. */
  ghost function BestOf(c: Cluster, k: nat): (r: int)
    requires k <= |c.clients|
    ensures -1 <= r < k
    ensures r >= 0 ==> c.clients[r].used
  {
    if k == 0 then -1
    else
      var b := BestOf(c, k - 1);
      if c.clients[k - 1].used && Beats(c, k - 1, b) then k - 1 else b
  }

  ghost function Selected(c: Cluster): (r: int)
    ensures -1 <= r < |c.clients|
    ensures r >= 0 ==> c.clients[r].used
  {
    BestOf(c, |c.clients|)
  }

  // ---------- Specification: stability and decision ----------

  /** `sets_eq`: equal lengths and one-way inclusion. */
  predicate SameIds(a: seq<u32>, b: seq<u32>) {
    |a| == |b| && forall x :: x in a ==> x in b
  }

  predicate SameRing(a: Client, b: Client) {
    a.ringNode == b.ringNode && a.ringSeq == b.ringSeq
  }

  predicate Agree(a: Client, b: Client) {
    a.hasRing && b.hasRing && SameRing(a, b) && SameIds(a.memb, b.memb)
  }

  predicate ConfigsAgree(t: seq<Client>, i: int)
    requires 0 <= i < |t|
  {
    forall j :: 0 <= j < |t| && t[j].used && j != i ==> SameIds(t[i].cfg, t[j].cfg)
  }

  predicate MembersAgree(t: seq<Client>, i: int)
    requires 0 <= i < |t|
  {
    forall a :: 0 <= a < |t[i].memb| ==>
      var p := SlotOf(t, t[i].memb[a]);
      p >= 0 ==> Agree(t[i], t[p])
  }

  predicate StableSlot(t: seq<Client>, i: int)
    requires 0 <= i < |t|
  {
    ConfigsAgree(t, i) && MembersAgree(t, i)
  }

  predicate Stable(t: seq<Client>) {
    forall i :: 0 <= i < |t| && t[i].used ==> StableSlot(t, i)
  }

  /** The selection a decision stores: the best membership, or nothing. */
  ghost function Chosen(c: Cluster): Ids {
    var b := Selected(c);
    if b < 0 then [] else c.clients[b].memb
  }

  function VoteFor(quorate: seq<u32>, id: u32): u8 {
    if id in quorate then VOTE_ACK else VOTE_NACK
  }

  /** `votes` after a decision: connected slots are voted, others keep their entry. */
  function VotesOf(t: seq<Client>, quorate: seq<u32>, votes: seq<u8>): (r: seq<u8>)
    requires |votes| == |t|
    ensures |r| == |t|
    ensures forall i :: 0 <= i < |t| ==>
              r[i] == if t[i].used then VoteFor(quorate, t[i].nodeId) else votes[i]
  {
    seq(|t|, i requires 0 <= i < |t| => if t[i].used then VoteFor(quorate, t[i].nodeId) else votes[i])
  }

  // ---------- The table ----------

  class Table {
    const clients: array<Client>
    var quorate: Ids

    ghost predicate Valid() {
      clients.Length == MAX_CLIENTS
    }

    ghost function View(): Cluster
      reads this, clients
    {
      Cluster(clients[..], quorate)
    }

    constructor ()
      ensures Valid() && fresh(clients)
      ensures View() == Cluster(seq(MAX_CLIENTS, _ => EMPTY_SLOT), [])
    {
      clients := new Client[MAX_CLIENTS](_ => EMPTY_SLOT);
      quorate := [];
      new;
      assert clients[..] == seq(MAX_CLIENTS, _ => EMPTY_SLOT);
    }

    method FindSlot(id: u32) returns (r: int)
      requires Valid()
      ensures r == SlotOf(clients[..], id)
    {
      var i := 0;
      while i < clients.Length
        invariant 0 <= i <= clients.Length
        invariant forall k :: 0 <= k < i ==> !Holds(clients[..], k, id)
      {
        if clients[i].used && clients[i].nodeId == id {
          assert Holds(clients[..], i, id);
          return i;
        }
        i := i + 1;
      }
      return -1;
    }

    /** Find the slot of `id` or take the first free one; -1 when the table is full. */
    method Slot(id: u32) returns (r: int)
      requires Valid()
      modifies clients
      ensures r == SlotFor(old(clients[..]), id)
      ensures clients[..] == WithSlot(old(clients[..]), id)
    {
      r := FindSlot(id);
      if r >= 0 {
        return;
      }
      var i := 0;
      while i < clients.Length
        invariant 0 <= i <= clients.Length
        invariant forall k :: 0 <= k < i ==> clients[k].used
        invariant clients[..] == old(clients[..])
      {
        if !clients[i].used {
          FirstFreeUnique(clients[..], i);
          clients[i] := FreshClient(id);
          return i;
        }
        i := i + 1;
      }
      FirstFreeUnique(clients[..], -1);
      return -1;
    }

    method Remove(idx: int)
      requires Valid()
      modifies clients
      ensures clients[..] == WithoutSlot(old(clients[..]), idx)
    {
      if 0 <= idx < MAX_CLIENTS {
        clients[idx] := clients[idx].(used := false);
      }
    }

    method PreferredIn(cl: Client) returns (r: bool)
      ensures r == PreferredInMemb(cl)
    {
      var pref: u32 := 0;
      var have := false;
      if cl.tbMode == TB_NODE_ID {
        pref := cl.tbNode;
        have := true;
      } else if cl.tbMode == TB_LOWEST || cl.tbMode == TB_HIGHEST {
        var i := 0;
        while i < |cl.cfg|
          invariant 0 <= i <= |cl.cfg|
          invariant have == (i > 0)
          invariant have ==> pref in cl.cfg[..i]
          invariant have && cl.tbMode == TB_LOWEST ==> forall x :: x in cl.cfg[..i] ==> pref <= x
          invariant have && cl.tbMode == TB_HIGHEST ==> forall x :: x in cl.cfg[..i] ==> pref >= x
        {
          assert cl.cfg[..i + 1] == cl.cfg[..i] + [cl.cfg[i]];
          if !have {
            pref := cl.cfg[i];
            have := true;
          } else if cl.tbMode == TB_LOWEST && cl.cfg[i] < pref {
            pref := cl.cfg[i];
          } else if cl.tbMode == TB_HIGHEST && cl.cfg[i] > pref {
            pref := cl.cfg[i];
          }
          i := i + 1;
        }
        assert cl.cfg[..|cl.cfg|] == cl.cfg;
      }
      if !have || |cl.cfg| == 0 {
        return false;
      }
      assert Nominated(cl, pref);
      return pref in cl.memb;
    }

    /** The counting loops of `stats`. */
    method Stats(idx: nat) returns (active: nat, pass: nat, fail: nat)
      requires Valid() && idx < MAX_CLIENTS
      ensures active == Active(clients[..], clients[idx].memb)
      ensures pass == HeurUpTo(clients[..], clients[idx].memb, |clients[idx].memb|, HEUR_PASS)
      ensures fail == HeurUpTo(clients[..], clients[idx].memb, |clients[idx].memb|, HEUR_FAIL)
    {
      active, pass, fail := 0, 0, 0;
      var m := clients[idx].memb;
      var i := 0;
      while i < |m|
        invariant 0 <= i <= |m|
        invariant active == ActiveUpTo(clients[..], m, i)
        invariant pass == HeurUpTo(clients[..], m, i, HEUR_PASS)
        invariant fail == HeurUpTo(clients[..], m, i, HEUR_FAIL)
      {
        var j := FindSlot(m[i]);
        if j >= 0 {
          active := active + 1;
          if clients[j].heur == HEUR_PASS {
            pass := pass + 1;
          } else if clients[j].heur == HEUR_FAIL {
            fail := fail + 1;
          }
        }
        i := i + 1;
      }
    }

    method KapEnabled() returns (r: bool)
      requires Valid()
      ensures r == KapOn(clients[..])
    {
      var j := 0;
      while j < clients.Length
        invariant 0 <= j <= clients.Length
        invariant forall k :: 0 <= k < j && clients[k].used ==> clients[k].kap
      {
        if clients[j].used && !clients[j].kap {
          assert !clients[..][j].kap;
          return false;
        }
        j := j + 1;
      }
      return true;
    }

    /** `active + (pass - fail)` in `size_t` arithmetic; no slot (`idx < 0`) scores 0. */
    method SlotScore(idx: int) returns (score: int, active: nat)
      requires Valid() && -1 <= idx < MAX_CLIENTS
      ensures active == SideActive(View(), idx)
      ensures score == SideScore(View(), idx)
    {
      var pass, fail := 0, 0;
      active := 0;
      if idx >= 0 {
        active, pass, fail := Stats(idx);
        WrappedScoreExact(clients[..], clients[idx].memb, SIZE_MODULUS);
      }
      score := WrappedScore(active, pass, fail, SIZE_MODULUS);
    }

    /** Keep-active and tie-breaker, once score and active count are level. */
    method SettleTie(idx: nat, best: int) returns (r: bool)
      requires Valid() && idx < MAX_CLIENTS && -1 <= best < MAX_CLIENTS
      ensures r == TieSettled(View(), idx, best)
    {
      if best < 0 {
        r := PreferredIn(clients[idx]);
        return;
      }
      var kapOn := KapEnabled();
      if kapOn {
        var aIn := clients[idx].nodeId in quorate;
        var bIn := clients[best].nodeId in quorate;
        if aIn && !bIn {
          return true;
        }
        if !aIn && bIn {
          return false;
        }
      }
      r := PreferredIn(clients[idx]);
    }

    /** The 50:50 branch of the comparison. */
    method BetterHalf(idx: nat, best: int) returns (r: bool)
      requires Valid() && idx < MAX_CLIENTS && -1 <= best < MAX_CLIENTS
      ensures r == TieBeats(View(), idx, best)
    {
      var scoreA, aAct := SlotScore(idx);
      var scoreB, bAct := SlotScore(best);
      if scoreA > scoreB {
        return true;
      }
      if scoreA < scoreB {
        return false;
      }
      if aAct > bAct {
        return true;
      }
      if aAct < bAct {
        return false;
      }
      r := SettleTie(idx, best);
    }

    method Better(idx: nat, best: int) returns (r: bool)
      requires Valid() && idx < MAX_CLIENTS && -1 <= best < MAX_CLIENTS
      ensures r == Beats(View(), idx, best)
    {
      var a := clients[idx];
      var ncfg, nmemb := |a.cfg|, |a.memb|;
      if ncfg % 2 != 0 {
        return nmemb > ncfg / 2;
      }
      if nmemb > ncfg / 2 {
        return true;
      }
      if nmemb < ncfg / 2 {
        return false;
      }
      r := BetterHalf(idx, best);
    }

    method Select() returns (found: bool, ids: Ids)
      requires Valid()
      ensures found == (Selected(View()) >= 0)
      ensures ids == Chosen(View())
    {
      var best := -1;
      var i := 0;
      while i < clients.Length
        invariant 0 <= i <= clients.Length
        invariant -1 <= best < i
        invariant best == BestOf(View(), i)
      {
        if clients[i].used {
          var b := Better(i, best);
          if b {
            best := i;
          }
        }
        i := i + 1;
      }
      if best < 0 {
        return false, [];
      }
      return true, clients[best].memb;
    }

    method SetsEqual(a: Ids, b: Ids) returns (r: bool)
      ensures r == SameIds(a, b)
    {
      if |a| != |b| {
        return false;
      }
      var i := 0;
      while i < |a|
        invariant 0 <= i <= |a|
        invariant forall k :: 0 <= k < i ==> a[k] in b
      {
        if a[i] !in b {
          return false;
        }
        i := i + 1;
      }
      return true;
    }

    method ConfigsEqual(i: nat) returns (r: bool)
      requires Valid() && i < MAX_CLIENTS
      ensures r == ConfigsAgree(clients[..], i)
    {
      var j := 0;
      while j < clients.Length
        invariant 0 <= j <= clients.Length
        invariant forall k :: 0 <= k < j && clients[k].used && k != i ==> SameIds(clients[i].cfg, clients[k].cfg)
      {
        if clients[j].used && i != j {
          var eq := SetsEqual(clients[i].cfg, clients[j].cfg);
          if !eq {
            assert clients[..][j].used && !SameIds(clients[..][i].cfg, clients[..][j].cfg);
            return false;
          }
        }
        j := j + 1;
      }
      return true;
    }

    method MembersConsistent(i: nat) returns (r: bool)
      requires Valid() && i < MAX_CLIENTS
      ensures r == MembersAgree(clients[..], i)
    {
      var me := clients[i];
      var a := 0;
      while a < |me.memb|
        invariant 0 <= a <= |me.memb|
        invariant forall k :: 0 <= k < a ==>
                    var p := SlotOf(clients[..], me.memb[k]);
                    p >= 0 ==> Agree(me, clients[p])
      {
        var peer := FindSlot(me.memb[a]);
        if peer >= 0 {
          var o := clients[peer];
          if !me.hasRing || !o.hasRing || me.ringNode != o.ringNode || me.ringSeq != o.ringSeq {
            return false;
          }
          var eq := SetsEqual(me.memb, o.memb);
          if !eq {
            return false;
          }
        }
        a := a + 1;
      }
      return true;
    }

    method IsStable() returns (r: bool)
      requires Valid()
      ensures r == Stable(clients[..])
    {
      var i := 0;
      while i < clients.Length
        invariant 0 <= i <= clients.Length
        invariant forall k :: 0 <= k < i && clients[k].used ==> StableSlot(clients[..], k)
      {
        if clients[i].used {
          var ok := ConfigsEqual(i);
          if ok {
            ok := MembersConsistent(i);
          }
          if !ok {
            assert clients[..][i].used && !StableSlot(clients[..], i);
            return false;
          }
        }
        i := i + 1;
      }
      return true;
    }

    /** Store the new selection and vote every connected slot, or report "not stable". */
    method Decide(votes: array<u8>) returns (decided: bool)
      requires Valid() && votes.Length == MAX_CLIENTS
      modifies this`quorate, votes
      ensures clients[..] == old(clients[..])
      ensures decided == Stable(clients[..])
      ensures !decided ==> quorate == old(quorate) && votes[..] == old(votes[..])
      ensures decided ==> quorate == Chosen(old(View()))
      ensures decided ==> votes[..] == VotesOf(clients[..], quorate, old(votes[..]))
    {
      decided := IsStable();
      if !decided {
        return;
      }
      var found, ids := Select();
      assert View() == old(View());
      if found {
        quorate := ids;
      } else {
        quorate := [];
      }
      var i := 0;
      while i < clients.Length
        invariant 0 <= i <= clients.Length
        invariant clients[..] == old(clients[..]) && quorate == Chosen(old(View()))
        invariant forall k :: 0 <= k < i ==>
                    votes[k] == if clients[k].used then VoteFor(quorate, clients[k].nodeId) else old(votes[k])
        invariant forall k :: i <= k < votes.Length ==> votes[k] == old(votes[k])
      {
        if clients[i].used {
          votes[i] := VoteFor(quorate, clients[i].nodeId);
        }
        i := i + 1;
      }
    }
  }

  // ---------- Specification: slot allocation ----------

  function FirstFree(t: seq<Client>, from: nat): (r: int)
    requires from <= |t|
    ensures r == -1 || from <= r < |t|
    ensures r >= 0 ==> !t[r].used && forall k :: from <= k < r ==> t[k].used
    ensures r < 0 ==> forall k :: from <= k < |t| ==> t[k].used
    decreases |t| - from
  {
    if from == |t| then -1
    else if !t[from].used then from
    else FirstFree(t, from + 1)
  }

  lemma FirstFreeUnique(t: seq<Client>, r: int)
    requires r == -1 || 0 <= r < |t|
    requires r >= 0 ==> !t[r].used && forall k :: 0 <= k < r ==> t[k].used
    requires r < 0 ==> forall k :: 0 <= k < |t| ==> t[k].used
    ensures FirstFree(t, 0) == r
  {
    var q := FirstFree(t, 0);
    if q >= 0 { assert !t[q].used; }
    if r >= 0 { assert !t[r].used; }
  }

  function SlotFor(t: seq<Client>, id: u32): (r: int)
    ensures -1 <= r < |t|
  {
    var k := SlotOf(t, id);
    if k >= 0 then k else FirstFree(t, 0)
  }

  function WithSlot(t: seq<Client>, id: u32): (r: seq<Client>)
    ensures |r| == |t|
  {
    if SlotOf(t, id) >= 0 || FirstFree(t, 0) < 0 then t
    else t[FirstFree(t, 0) := FreshClient(id)]
  }

  function WithoutSlot(t: seq<Client>, idx: int): (r: seq<Client>)
    ensures |r| == |t|
  {
    if 0 <= idx < |t| then t[idx := t[idx].(used := false)] else t
  }
}
