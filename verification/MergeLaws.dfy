/** Laws of the merge: rank growth and version accounting, idempotence, convergence. */
module MergeLaws {
  import opened Wrappers
  import opened Identity
  import opened Membership

  /** What a merge maximises: boot, then incarnation while suspicion is on, then last update. */
  datatype Rank = Rank(ts: nat, inc: nat, last: int) {
    predicate Below(o: Rank) {
      ts < o.ts || (ts == o.ts && (inc < o.inc || (inc == o.inc && last < o.last)))
    }

    predicate AtMost(o: Rank) {
      this == o || Below(o)
    }
  }

  function RankOf(e: Entry, suspicion: bool): Rank {
    Rank(e.id.ts, if suspicion then e.inc else 0, e.last)
  }

  function RankBy(suspicion: bool): Entry -> Rank {
    (e: Entry) => RankOf(e, suspicion)
  }

  // ------------------------ rank and version accounting ------------------------

  /** How many entries of `list`, heard in order, change the table. */
  function EffectiveCount(r: Replica, list: seq<Entry>, now: int): nat
    decreases |list|
  {
    if list == [] then 0
    else (if Effective(r, list[0], now) then 1 else 0) + EffectiveCount(Update(r, list[0], now), list[1..], now)
  }

  /** An effective update strictly raises the rank of the endpoint it touches, or fills an empty slot. */
  lemma EffectiveRaisesRank(r: Replica, e: Entry, now: int)
    requires Effective(r, e, now) && e.id.ep in r.table
    ensures RankOf(r.table[e.id.ep], r.tSuspect != 0).Below(RankOf(Update(r, e, now).table[e.id.ep], r.tSuspect != 0))
  {
  }

  /** Over a whole merge no endpoint disappears or loses rank, and a changed row has gained rank. */
  lemma {:induction false} MergeRaisesRank(r: Replica, list: seq<Entry>, now: int, k: Endpoint)
    requires k in r.table
    ensures var m, on := Merge(r, list, now), r.tSuspect != 0;
      k in m.table
      && (m.table[k] == r.table[k] || RankOf(r.table[k], on).Below(RankOf(m.table[k], on)))
    decreases |list|
  {
    if list == [] {
    } else {
      var u := Update(r, list[0], now);
      if list[0].id.ep == k && Effective(r, list[0], now) {
        EffectiveRaisesRank(r, list[0], now);
      }
      MergeRaisesRank(u, list[1..], now, k);
    }
  }

  lemma {:induction false} MergeFills(r: Replica, list: seq<Entry>, now: int)
    requires EffectiveCount(r, list, now) > 0
    ensures Merge(r, list, now).table != r.table
    decreases |list|
  {
    var u := Update(r, list[0], now);
    if Effective(r, list[0], now) {
      var k := list[0].id.ep;
      MergeRaisesRank(u, list[1..], now, k);
      if k in r.table {
        EffectiveRaisesRank(r, list[0], now);
      }
    } else {
      MergeFills(u, list[1..], now);
    }
  }

  lemma {:induction false} MergeCounts(r: Replica, list: seq<Entry>, now: int)
    ensures Merge(r, list, now).version == r.version + EffectiveCount(r, list, now)
    ensures EffectiveCount(r, list, now) == 0 ==> Merge(r, list, now) == r
    decreases |list|
  {
    if list == [] {
    } else {
      MergeCounts(Update(r, list[0], now), list[1..], now);
    }
  }

  /** The version grows by the number of effective updates, and stands still exactly when the table does. */
  lemma VersionAccounting(r: Replica, list: seq<Entry>, now: int)
    ensures Merge(r, list, now).version == r.version + EffectiveCount(r, list, now)
    ensures Merge(r, list, now).version == r.version <==> Merge(r, list, now).table == r.table
  {
    MergeCounts(r, list, now);
    if EffectiveCount(r, list, now) > 0 {
      MergeFills(r, list, now);
    }
  }

  /** What hearing one claim does, case by case. */
  lemma HearsOne(r: Replica, e: Entry, now: int)
    ensures var (t, k) := (Merge(r, [e], now).table, e.id.ep);
      && (forall o | o != k :: Get(t, o) == Get(r.table, o)) && k in t
      && (k !in r.table ==> t[k] == e)
      && (k in r.table && e.id.ts > r.table[k].id.ts ==> t[k] == Entry(e.id, e.inc, e.state, now))
      && (k in r.table && e.id.ts < r.table[k].id.ts ==> t[k] == r.table[k])
    ensures e.id.ep in r.table && e.id.ts == r.table[e.id.ep].id.ts ==>
      var (z, x) := (Merge(r, [e], now).table[e.id.ep], r.table[e.id.ep]);
      && (r.tSuspect == 0 ==> z == if e.last > x.last then e else x)
      && (r.tSuspect != 0 && e.inc > x.inc ==> z == e)
      && (r.tSuspect != 0 && e.inc < x.inc ==> z == x)
      && (r.tSuspect != 0 && e.inc == x.inc ==>
            z == if e.id == r.self && (e.state == Suspect || e.state == Failed) then Entry(x.id, x.inc + 1, Alive, now)
                 else if e.last > x.last then e
                 else x)
  {
    assert [e][1..] == [] && Merge(Update(r, e, now), [], now) == Update(r, e, now);
  }

  /** The row of a newer boot is stamped with the receiver's time, whatever its state and its own time. */
  lemma NewerBootRestamped(r: Replica, e: Entry, now: int)
    requires e.id.ep in r.table && e.id.ts > r.table[e.id.ep].id.ts
    ensures Merge(r, [e], now) == r.(table := r.table[e.id.ep := e.(last := now)], version := r.version + 1)
  {
    HearsOne(r, e, now);
    assert [e][1..] == [] && Merge(Update(r, e, now), [], now) == Update(r, e, now);
  }

  /** A refutation wins: any node that holds an older or equal claim about the boot, the accusation that
      provoked it included, replaces it by the refutation, and the accusation cannot come back. */
  lemma RefutationWins(own: Entry, x: Entry, peer: NodeId, now: int, later: int)
    requires x.id == own.id && x.inc <= own.inc && peer != own.id
    ensures var z := Bumped(own, now);
      && z.state == Alive && z.id == own.id && z.last == now
      && Resolve(Some(x), z, peer, true, later) == z && Resolve(Some(z), x, peer, true, later) == z
  {
  }

  // -------------------------------- idempotence --------------------------------

  /** `r` has nothing to learn from `e`. */
  ghost predicate Absorbed(r: Replica, e: Entry) {
    && e.id.ep in r.table
    && RankOf(e, r.tSuspect != 0).AtMost(RankOf(r.table[e.id.ep], r.tSuspect != 0))
    && (r.tSuspect != 0 && e.id == r.self && Accuses(e) && r.table[e.id.ep].id.ts == e.id.ts
        ==> e.inc < r.table[e.id.ep].inc)
  }

  /** What the merge of `list` may assume of the own row: it is the node's own, and nothing in the
      list comes from the future or, with suspicion on, claims a higher incarnation for it. */
  ghost predicate Honest(r: Replica, list: seq<Entry>, now: int) {
    && r.self.ep in r.table && r.table[r.self.ep].id.ts >= r.self.ts
    && (forall c | c in list :: c.last <= now)
    && (r.tSuspect != 0 && r.table[r.self.ep].id.ts == r.self.ts ==>
          forall c | c in list && c.id == r.self :: c.inc <= r.table[r.self.ep].inc)
  }

  lemma UpdateAbsorbs(r: Replica, e: Entry, now: int)
    requires Honest(r, [e], now)
    ensures Absorbed(Update(r, e, now), e)
  {
    assert e in [e];
  }

  lemma {:induction false} MergeStaysAbsorbed(r: Replica, list: seq<Entry>, now: int, e: Entry)
    requires Absorbed(r, e)
    ensures Absorbed(Merge(r, list, now), e)
  {
    MergeKeeps(r, list, now);
    MergeRaisesRank(r, list, now, e.id.ep);
  }

  lemma {:induction false} MergeAbsorbs(r: Replica, list: seq<Entry>, now: int)
    requires Honest(r, list, now)
    ensures forall e | e in list :: Absorbed(Merge(r, list, now), e)
    decreases |list|
  {
    if list == [] {
    } else {
      var (e, rest) := (list[0], list[1..]);
      assert list == [e] + rest && e in list;
      var u := Update(r, e, now);
      UpdateAbsorbs(r, e, now);
      assert forall c | c in rest :: c in list;
      MergeAbsorbs(u, rest, now);
      MergeStaysAbsorbed(u, rest, now, e);
    }
  }

  lemma {:induction false} AbsorbedIsNoOp(r: Replica, list: seq<Entry>, now: int)
    requires forall e | e in list :: Absorbed(r, e)
    ensures Merge(r, list, now) == r
    decreases |list|
  {
    if list == [] {
    } else {
      assert list[0] in list;
      assert Update(r, list[0], now) == r;
      AbsorbedIsNoOp(r, list[1..], now);
    }
  }

  /** Merging the same list again, at any later or earlier time, changes neither table nor version:
      duplicate endpoints, several boots and refuted accusations included. */
  lemma MergeIdempotent(r: Replica, list: seq<Entry>, now: int, later: int)
    requires Honest(r, list, now)
    ensures Merge(Merge(r, list, now), list, later) == Merge(r, list, now)
  {
    MergeAbsorbs(r, list, now);
    AbsorbedIsNoOp(Merge(r, list, now), list, later);
  }

  // -------------------------------- convergence --------------------------------

  /** A received list with the time at which it was merged. */
  datatype Batch = Batch(list: seq<Entry>, now: int)

  function MergeBatches(r: Replica, batches: seq<Batch>): Replica
    decreases |batches|
  {
    if batches == [] then r else MergeBatches(Merge(r, batches[0].list, batches[0].now), batches[1..])
  }

  /** `e` arrived in some batch. */
  ghost predicate Received(batches: seq<Batch>, e: Entry) {
    exists b | b in batches :: e in b.list
  }

  /** Everything known about `k`: the initial row and all that was received. */
  ghost predicate Heard(r: Replica, batches: seq<Batch>, k: Endpoint, e: Entry) {
    e.id.ep == k && (Received(batches, e) || Get(r.table, k) == Some(e))
  }

  /** Boot and incarnation only. */
  function Epoch(e: Entry): Rank {
    Rank(e.id.ts, e.inc, 0)
  }

  /** `m` is the row for `k`, dominates `rank` of all that was heard about `k`, and its rank was heard. */
  ghost predicate IsMaximum(rank: Entry -> Rank, r: Replica, batches: seq<Batch>, k: Endpoint, m: Entry) {
    && (forall e | Heard(r, batches, k, e) :: rank(e).AtMost(rank(m)))
    && (exists e :: Heard(r, batches, k, e) && rank(e) == rank(m))
  }

  /** Each update leaves the larger of the two ranks, under `rank`. */
  ghost predicate Selects(rank: Entry -> Rank, k: Endpoint, self: NodeId, suspicion: bool, p: Entry -> bool) {
    forall x: Entry, e: Entry, now: int | x.id.ep == e.id.ep == k && p(x) && p(e) ::
      var z := Resolve(Some(x), e, self, suspicion, now);
      p(z) && rank(x).AtMost(rank(z)) && rank(e).AtMost(rank(z)) && (rank(z) == rank(x) || rank(z) == rank(e))
  }

  /** The row for `k` dominates what was heard, within one list. */
  lemma {:induction false} MergeMaximum(rank: Entry -> Rank, r: Replica, list: seq<Entry>, now: int, k: Endpoint, p: Entry -> bool)
    requires Keyed(r.table) && Selects(rank, k, r.self, r.tSuspect != 0, p)
    requires forall e | e in list && e.id.ep == k :: p(e)
    requires k in r.table ==> p(r.table[k])
    ensures var m := Merge(r, list, now);
      (k in r.table || exists e :: e in list && e.id.ep == k) ==>
        && k in m.table && p(m.table[k])
        && (forall e | e in list && e.id.ep == k :: rank(e).AtMost(rank(m.table[k])))
        && (k in r.table ==> rank(r.table[k]).AtMost(rank(m.table[k])))
        && ((k in r.table && rank(m.table[k]) == rank(r.table[k]))
            || exists e :: e in list && e.id.ep == k && rank(e) == rank(m.table[k]))
    ensures (k !in r.table && (forall e | e in list :: e.id.ep != k)) ==> k !in Merge(r, list, now).table
    decreases |list|
  {
    if list == [] {
    } else {
      var (e, rest) := (list[0], list[1..]);
      assert list == [e] + rest;
      assert forall c :: c in list <==> c == e || c in rest;
      var u := Update(r, e, now);
      if e.id.ep == k && k in r.table {
        var z := Resolve(Some(r.table[k]), e, r.self, r.tSuspect != 0, now);
        assert u.table[k] == z;
      }
      MergeMaximum(rank, u, rest, now, k, p);
    }
  }

  lemma {:induction false} BatchesMaximum(rank: Entry -> Rank, r: Replica, batches: seq<Batch>, k: Endpoint, p: Entry -> bool)
    requires Keyed(r.table) && Selects(rank, k, r.self, r.tSuspect != 0, p)
    requires forall e | Heard(r, batches, k, e) :: p(e)
    requires exists e :: Heard(r, batches, k, e)
    ensures var m := MergeBatches(r, batches);
      k in m.table && IsMaximum(rank, r, batches, k, m.table[k])
    decreases |batches|
  {
    if batches == [] {
      var m := r.table[k];
      assert Heard(r, batches, k, m);
    } else {
      var (b, rest) := (batches[0], batches[1..]);
      assert batches == [b] + rest;
      assert forall c :: c in batches <==> c == b || c in rest;
      forall e: Entry | e.id.ep == k && e in b.list ensures Heard(r, batches, k, e) && p(e) {
        assert Received(batches, e);
      }
      assert k in r.table ==> Heard(r, batches, k, r.table[k]);
      var u := Merge(r, b.list, b.now);
      MergeKeeps(r, b.list, b.now);
      MergeMaximum(rank, r, b.list, b.now, k, p);
      forall e | Heard(u, rest, k, e) ensures p(e) {
        if Received(rest, e) {
          assert Received(batches, e) && Heard(r, batches, k, e);
        }
      }
      var h :| Heard(r, batches, k, h);
      if Received(rest, h) {
        assert Heard(u, rest, k, h);
      } else {
        assert k in u.table;
        assert Heard(u, rest, k, u.table[k]);
      }
      BatchesMaximum(rank, u, rest, k, p);
      BatchesStep(rank, r, b, rest, k);
    }
  }

  /** The maximum over the remaining batches, started from the row the first batch left, is the maximum over all. */
  lemma BatchesStep(rank: Entry -> Rank, r: Replica, b: Batch, rest: seq<Batch>, k: Endpoint)
    requires var u := Merge(r, b.list, b.now);
      && k in MergeBatches(u, rest).table
      && IsMaximum(rank, u, rest, k, MergeBatches(u, rest).table[k])
      && (k in r.table || (exists e :: e in b.list && e.id.ep == k) ==>
        && k in u.table
        && (forall e | e in b.list && e.id.ep == k :: rank(e).AtMost(rank(u.table[k])))
        && (k in r.table ==> rank(r.table[k]).AtMost(rank(u.table[k])))
        && ((k in r.table && rank(u.table[k]) == rank(r.table[k]))
            || exists e :: e in b.list && e.id.ep == k && rank(e) == rank(u.table[k])))
      && (k in u.table ==> u.table[k].id.ep == k && (k in r.table || exists e :: e in b.list && e.id.ep == k))
      && (k in r.table ==> r.table[k].id.ep == k)
    ensures IsMaximum(rank, r, [b] + rest, k, MergeBatches(Merge(r, b.list, b.now), rest).table[k])
  {
    var u := Merge(r, b.list, b.now);
    var m := MergeBatches(u, rest).table[k];
    var all := [b] + rest;
    assert forall c :: c in all <==> c == b || c in rest;
    forall e | Heard(r, all, k, e) ensures rank(e).AtMost(rank(m)) {
      if Received(rest, e) {
        assert Heard(u, rest, k, e);
      } else {
        assert Heard(u, rest, k, u.table[k]);
      }
    }
    var w :| Heard(u, rest, k, w) && rank(w) == rank(m);
    if Received(rest, w) {
      assert Heard(r, all, k, w);
    } else if k in r.table && rank(w) == rank(r.table[k]) {
      assert Heard(r, all, k, r.table[k]);
    } else {
      var v :| v in b.list && v.id.ep == k && rank(v) == rank(w);
      assert Received(all, v) && Heard(r, all, k, v);
    }
  }

  /** With suspicion on, the boot and incarnation held for a peer after any sequence of merges are
      the lexicographic maximum of all that was ever heard about it. */
  lemma EpochConverges(r: Replica, batches: seq<Batch>, k: Endpoint)
    requires Keyed(r.table) && r.tSuspect != 0 && k != r.self.ep
    requires exists e :: Heard(r, batches, k, e)
    ensures var m := MergeBatches(r, batches);
      k in m.table && IsMaximum(Epoch, r, batches, k, m.table[k])
  {
    var p := (e: Entry) => true;
    forall x: Entry, e: Entry, now: int | x.id.ep == e.id.ep == k
      ensures var z := Resolve(Some(x), e, r.self, true, now);
        Epoch(x).AtMost(Epoch(z)) && Epoch(e).AtMost(Epoch(z)) && (Epoch(z) == Epoch(x) || Epoch(z) == Epoch(e))
    {
    }
    BatchesMaximum(Epoch, r, batches, k, p);
  }

  /** If all that is heard of a peer comes from one boot, the whole rank converges, in either regime. */
  lemma RankConverges(r: Replica, batches: seq<Batch>, k: Endpoint, ts: u64)
    requires Keyed(r.table) && k != r.self.ep
    requires forall e | Heard(r, batches, k, e) :: e.id.ts == ts
    requires exists e :: Heard(r, batches, k, e)
    ensures var m := MergeBatches(r, batches);
      k in m.table && IsMaximum(RankBy(r.tSuspect != 0), r, batches, k, m.table[k])
  {
    BatchesMaximum(RankBy(r.tSuspect != 0), r, batches, k, (e: Entry) => e.id.ts == ts);
  }

  /** So order, batching, duplication and timing do not matter: two stores that heard the same about a peer agree. */
  lemma SameNewsSameEpoch(r: Replica, r': Replica, b: seq<Batch>, b': seq<Batch>, k: Endpoint)
    requires Keyed(r.table) && r.tSuspect != 0 && k != r.self.ep
    requires Keyed(r'.table) && r'.tSuspect != 0 && k != r'.self.ep
    requires forall e :: Heard(r, b, k, e) <==> Heard(r', b', k, e)
    requires exists e :: Heard(r, b, k, e)
    ensures var (m, m') := (MergeBatches(r, b).table, MergeBatches(r', b').table);
      k in m && k in m' && m[k].id.ts == m'[k].id.ts && m[k].inc == m'[k].inc
  {
    EpochConverges(r, b, k);
    EpochConverges(r', b', k);
  }

  lemma SameNewsSameRank(r: Replica, r': Replica, b: seq<Batch>, b': seq<Batch>, k: Endpoint, ts: u64)
    requires Keyed(r.table) && k != r.self.ep
    requires Keyed(r'.table) && k != r'.self.ep
    requires (r.tSuspect != 0) == (r'.tSuspect != 0)
    requires forall e :: Heard(r, b, k, e) <==> Heard(r', b', k, e)
    requires forall e | Heard(r, b, k, e) :: e.id.ts == ts
    requires exists e :: Heard(r, b, k, e)
    ensures var (m, m', on) := (MergeBatches(r, b).table, MergeBatches(r', b').table, r.tSuspect != 0);
      k in m && k in m' && RankOf(m[k], on) == RankOf(m'[k], on)
  {
    RankConverges(r, b, k, ts);
    RankConverges(r', b', k, ts);
  }

  // ----------------- what the merge does not promise, and when it does -----------------

  function Severity(s: State): nat {
    match s
    case Unknown => 0
    case Alive => 1
    case Suspect => 2
    case Failed => 3
    case Left => 4
  }

  /** The documented precedence at equal boot and incarnation, where the more severe state wins, is not
      what decides: recency is. The documented winner comes out exactly when the states are the same, or the
      incoming claim is strictly more recent exactly when it is strictly more severe; on equal timestamps
      the row that was there stays, so there it must already be the more severe. */
  lemma StatePrecedence(x: Entry, e: Entry, self: NodeId, now: int)
    requires e.id == x.id && e.inc == x.inc && e.id != self
    ensures var z := Resolve(Some(x), e, self, true, now);
      z.state == (if Severity(e.state) > Severity(x.state) then e.state else x.state)
      <==> e.state == x.state || (e.last > x.last <==> Severity(e.state) > Severity(x.state))
  {
  }

  lemma MergeTwo(r: Replica, a: Entry, b: Entry, now: int)
    ensures Merge(r, [a, b], now) == Update(Update(r, a, now), b, now)
  {
    var u := Update(r, a, now);
    assert [a, b][1..] == [b] && [b][1..] == [];
    assert Merge(u, [b], now) == Merge(Update(u, b, now), [], now);
  }

  /** Full rows need not converge: of two claims that tie in boot, incarnation and time, the first to arrive is
      kept. So it is with an Alive row and the Suspect row a scan makes of it; and with a leave and the failure
      that a scan with suspicion off makes of it, where arrival decides whether the leave is known at all. */
  lemma StateDoesNotConverge(self: NodeId, id: NodeId, now: int, tSuspect: int)
    requires id.ep != self.ep
    ensures var (a, s, r) := (Entry(id, 100, Alive, 7), Entry(id, 100, Suspect, 7), Replica(self, map[], 1, tSuspect));
      Get(Merge(r, [a, s], now).table, id.ep) == Some(a) && Get(Merge(r, [s, a], now).table, id.ep) == Some(s)
    ensures var (l, f, r) := (Entry(id, 101, Left, 7), Entry(id, 101, Failed, 7), Replica(self, map[], 1, tSuspect));
      Get(Merge(r, [l, f], now).table, id.ep) == Some(l) && Get(Merge(r, [f, l], now).table, id.ep) == Some(f)
  {
    var r := Replica(self, map[], 1, tSuspect);
    var (a, s) := (Entry(id, 100, Alive, 7), Entry(id, 100, Suspect, 7));
    var (l, f) := (Entry(id, 101, Left, 7), Entry(id, 101, Failed, 7));
    MergeTwo(r, a, s, now);
    MergeTwo(r, s, a, now);
    MergeTwo(r, l, f, now);
    MergeTwo(r, f, l, now);
  }
}
