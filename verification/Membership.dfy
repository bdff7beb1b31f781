/** The membership table as a value: what one incoming entry does to it, and what merging a
    whole list, snapshotting, a direct state change and a removal do. */
module Membership {
  import opened Wrappers
  import opened Identity

  datatype State = Unknown | Alive | Suspect | Failed | Left

  datatype Entry = Entry(id: NodeId, inc: nat, state: State, last: int)

  type Table = map<Endpoint, Entry>

  /** One node's membership store. `tSuspect` is the suspicion timeout in force; zero disables suspicion. */
  datatype Replica = Replica(self: NodeId, table: Table, version: nat, tSuspect: int)

  const FIRST_INCARNATION: nat := 100

  ghost predicate Keyed(t: Table) {
    forall k | k in t :: t[k].id.ep == k
  }

  function Get(t: Table, k: Endpoint): Option<Entry> {
    if k in t then Some(t[k]) else None
  }

  predicate Accuses(e: Entry) {
    e.state == Suspect || e.state == Failed
  }

  function NewReplica(self: NodeId, tSuspect: int, now: int): Replica {
    Replica(self, map[self.ep := Entry(self, FIRST_INCARNATION, Alive, now)], 1, tSuspect)
  }

  /** Refuting an accusation: a higher incarnation, alive again, stamped now. */
  function Bumped(x: Entry, now: int): Entry {
    x.(inc := x.inc + 1, state := Alive, last := now)
  }

  /** Bumping the own row, if there is one. */
  function SelfBumped(r: Replica, now: int): Replica {
    if r.self.ep in r.table
    then r.(table := r.table[r.self.ep := Bumped(r.table[r.self.ep], now)], version := r.version + 1)
    else r
  }

  /** What the table holds for an endpoint after hearing `e`, given what it held before. */
  function Resolve(cur: Option<Entry>, e: Entry, self: NodeId, suspicion: bool, now: int): Entry {
    match cur
    case None => e
    case Some(x) =>
      if e.id.ts > x.id.ts then e.(last := now)
      else if e.id.ts < x.id.ts then x
      else if suspicion then
        if e.inc > x.inc then e
        else if e.inc == x.inc then
          if e.id == self && Accuses(e) then Bumped(x, now)
          else if e.last > x.last then e else x
        else x
      else if e.last > x.last then e
      else x
  }

  function Resolved(r: Replica, e: Entry, now: int): Entry {
    Resolve(Get(r.table, e.id.ep), e, r.self, r.tSuspect != 0, now)
  }

  /** Hearing `e` changes the table. */
  predicate Effective(r: Replica, e: Entry, now: int) {
    Get(r.table, e.id.ep) != Some(Resolved(r, e, now))
  }

  function Update(r: Replica, e: Entry, now: int): Replica {
    if Effective(r, e, now)
    then r.(table := r.table[e.id.ep := Resolved(r, e, now)], version := r.version + 1)
    else r
  }

  function Merge(r: Replica, list: seq<Entry>, now: int): Replica
    decreases |list|
  {
    if list == [] then r else Merge(Update(r, list[0], now), list[1..], now)
  }

  /** Taking a snapshot stamps the node's own entry, unless it has left. */
  predicate Refreshable(r: Replica) {
    && r.self.ep in r.table
    && r.table[r.self.ep].id == r.self
    && r.table[r.self.ep].state != Left
  }

  function Refresh(r: Replica, now: int): Replica {
    if Refreshable(r) then r.(table := r.table[r.self.ep := r.table[r.self.ep].(last := now)]) else r
  }

  /** A direct state change, addressed by endpoint: it overwrites state and incarnation
      whatever they are, and stamps the entry only for Alive and Left. */
  function Applied(x: Entry, inc: nat, state: State, now: int): Entry {
    x.(state := state, inc := inc, last := if state == Alive || state == Left then now else x.last)
  }

  function Apply(r: Replica, id: NodeId, inc: nat, state: State, now: int): Replica {
    if id.ep in r.table
    then r.(table := r.table[id.ep := Applied(r.table[id.ep], inc, state, now)], version := r.version + 1)
    else r
  }

  function Remove(r: Replica, id: NodeId): Replica {
    if id.ep in r.table then r.(table := r.table - {id.ep}, version := r.version + 1) else r
  }

  /** `list` holds rows of `t`, none of them twice, in some order. */
  ghost predicate RowsOf(list: seq<Entry>, t: Table) {
    && (forall i | 0 <= i < |list| :: list[i].id.ep in t && t[list[i].id.ep] == list[i])
    && (forall i, j | 0 <= i < j < |list| :: list[i].id.ep != list[j].id.ep)
  }

  /** `list` holds all of them. */
  ghost predicate Listing(list: seq<Entry>, t: Table) {
    RowsOf(list, t) && forall k | k in t :: t[k] in list
  }

  // --------------------- facts every layer above relies on ---------------------

  lemma SameTable(t: Table, u: Table)
    requires forall k :: Get(t, k) == Get(u, k)
    ensures t == u
  {
    forall k ensures k in t <==> k in u {
      assert Get(t, k) == Get(u, k);
    }
    forall k | k in t ensures t[k] == u[k] {
      assert Get(t, k) == Get(u, k);
    }
  }

  lemma {:induction false} MergeKeeps(r: Replica, list: seq<Entry>, now: int)
    ensures var m := Merge(r, list, now);
      m.self == r.self && m.tSuspect == r.tSuspect && m.version >= r.version
      && r.table.Keys <= m.table.Keys && (Keyed(r.table) ==> Keyed(m.table))
    decreases |list|
  {
    if list == [] {
    } else {
      MergeKeeps(Update(r, list[0], now), list[1..], now);
    }
  }

  lemma {:induction false} MergeAppend(r: Replica, a: seq<Entry>, b: seq<Entry>, now: int)
    ensures Merge(r, a + b, now) == Merge(Merge(r, a, now), b, now)
    decreases |a|
  {
    if a == [] {
      assert a + b == b;
    } else {
      assert (a + b)[0] == a[0] && (a + b)[1..] == a[1..] + b;
      MergeAppend(Update(r, a[0], now), a[1..], b, now);
    }
  }

  /** Only the entries about `k` matter to what the table holds for `k`. */
  lemma {:induction false} MergeElsewhere(r: Replica, list: seq<Entry>, now: int, k: Endpoint)
    requires forall c | c in list :: c.id.ep != k
    ensures Get(Merge(r, list, now).table, k) == Get(r.table, k)
    decreases |list|
  {
    if list == [] {
    } else {
      assert list[0] in list;
      MergeElsewhere(Update(r, list[0], now), list[1..], now, k);
    }
  }

  ghost predicate TableAll(t: Table, p: Entry -> bool) {
    forall k | k in t :: p(t[k])
  }

  ghost predicate ListAll(list: seq<Entry>, p: Entry -> bool) {
    forall c | c in list :: p(c)
  }

  /** Every row but one satisfies `p`. */
  ghost predicate TableAllBut(t: Table, self: Endpoint, p: Entry -> bool) {
    forall k | k in t && k != self :: p(t[k])
  }

  /** `p` survives the restamping of an entry that replaces an older boot. */
  ghost predicate RestampClosed(p: Entry -> bool, now: int) {
    forall c, x | p(c) && p(x) && c.id.ep == x.id.ep && c.id.ts > x.id.ts :: p(c.(last := now))
  }

  /** Provenance of a merge: outside the node's own row, every row after the merge is a row from
      before, an incoming entry, or an incoming entry restamped because it replaced an older boot. */
  lemma {:induction false} MergeProvenance(r: Replica, list: seq<Entry>, now: int, p: Entry -> bool)
    requires Keyed(r.table) && TableAllBut(r.table, r.self.ep, p) && ListAll(list, p)
    requires RestampClosed(p, now)
    ensures TableAllBut(Merge(r, list, now).table, r.self.ep, p)
    decreases |list|
  {
    if list == [] {
    } else {
      var e := list[0];
      assert e in list;
      var u := Update(r, e, now);
      if e.id.ep != r.self.ep && e.id.ep in r.table {
        var x := r.table[e.id.ep];
        assert p(x) && p(e);
        if e.id.ts > x.id.ts {
          assert p(e.(last := now));
        }
      }
      assert ListAll(list[1..], p);
      MergeProvenance(u, list[1..], now, p);
    }
  }

  /** Some entry in `list` accuses `self` at exactly incarnation `inc`. */
  predicate Refutable(list: seq<Entry>, self: NodeId, inc: nat) {
    exists c | c in list :: c.id == self && c.inc == inc && Accuses(c)
  }

  /** The own row after a merge, exactly: refuted once if accused at the current incarnation, else untouched. */
  lemma {:induction false} MergeSelf(r: Replica, list: seq<Entry>, now: int)
    requires r.self.ep in r.table && r.table[r.self.ep].id == r.self && r.table[r.self.ep].last == now
    requires forall c | c in list && c.id.ep == r.self.ep ::
      c.id.ts <= r.self.ts && c.last <= now && (c.id == r.self ==> c.inc <= r.table[r.self.ep].inc)
    ensures var own := r.table[r.self.ep];
      Get(Merge(r, list, now).table, r.self.ep)
      == Some(if r.tSuspect != 0 && Refutable(list, r.self, own.inc) then Bumped(own, now) else own)
    decreases |list|
  {
    if list == [] {
    } else {
      var e := list[0];
      var rest := list[1..];
      assert e in list && list == [e] + rest;
      var own := r.table[r.self.ep];
      var u := Update(r, e, now);
      MergeSelf(u, rest, now);
      assert forall c :: c in list <==> c == e || c in rest;
      if r.tSuspect != 0 && e.id == r.self && e.inc == own.inc && Accuses(e) {
        assert u.table[r.self.ep] == Bumped(own, now);
        assert !Refutable(rest, r.self, own.inc + 1);
        assert Refutable(list, r.self, own.inc);
      } else {
        assert u.table[r.self.ep] == own;
        if r.tSuspect != 0 {
          assert Refutable(list, r.self, own.inc) == Refutable(rest, r.self, own.inc);
        }
      }
    }
  }
}
