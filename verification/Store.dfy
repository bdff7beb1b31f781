/** The store object: a table keyed by the endpoint's text, updated in place. */
module MembershipStore {
  import opened Wrappers
  import opened Identity
  import opened Membership
  import opened Settings

  // ---------------------- the text-keyed table and its meaning ----------------------

  ghost predicate TextKeyed(m: map<string, Entry>) {
    forall k | k in m :: k == EndpointToString(m[k].id.ep)
  }

  ghost function Endpoints(m: map<string, Entry>): set<Endpoint> {
    set k | k in m :: m[k].id.ep
  }

  /** The same rows, keyed by endpoint. */
  ghost function ByEndpoint(m: map<string, Entry>): Table
    requires TextKeyed(m)
  {
    map ep | ep in Endpoints(m) :: m[EndpointToString(ep)]
  }

  /** A text-keyed table is an endpoint-keyed one: looking an endpoint up by its text finds its row, and
      no other, and both have as many rows. */
  lemma TextLookup(m: map<string, Entry>, ep: Endpoint)
    requires TextKeyed(m)
    ensures Keyed(ByEndpoint(m))
    ensures Get(ByEndpoint(m), ep) == if EndpointToString(ep) in m then Some(m[EndpointToString(ep)]) else None
  {
    var k := EndpointToString(ep);
    if k in m {
      EndpointKeyInjective(m[k].id.ep, ep);
    }
    forall q | q in ByEndpoint(m) ensures ByEndpoint(m)[q].id.ep == q {
      var t :| t in m && m[t].id.ep == q;
    }
  }

  lemma TextUpdate(m: map<string, Entry>, e: Entry)
    requires TextKeyed(m)
    ensures TextKeyed(m[EndpointToString(e.id.ep) := e])
    ensures ByEndpoint(m[EndpointToString(e.id.ep) := e]) == ByEndpoint(m)[e.id.ep := e]
  {
    var m' := m[EndpointToString(e.id.ep) := e];
    var (b, b') := (ByEndpoint(m)[e.id.ep := e], ByEndpoint(m'));
    forall ep ensures Get(b', ep) == Get(b, ep) {
      TextLookup(m, ep);
      TextLookup(m', ep);
      if EndpointToString(ep) == EndpointToString(e.id.ep) {
        EndpointKeyInjective(ep, e.id.ep);
      }
    }
    SameTable(b', b);
  }

  lemma TextRemove(m: map<string, Entry>, ep: Endpoint)
    requires TextKeyed(m)
    ensures TextKeyed(m - {EndpointToString(ep)})
    ensures ByEndpoint(m - {EndpointToString(ep)}) == ByEndpoint(m) - {ep}
  {
    var m' := m - {EndpointToString(ep)};
    var (b, b') := (ByEndpoint(m) - {ep}, ByEndpoint(m'));
    forall q ensures Get(b', q) == Get(b, q) {
      TextLookup(m, q);
      TextLookup(m', q);
      if EndpointToString(q) == EndpointToString(ep) {
        EndpointKeyInjective(q, ep);
      }
    }
    SameTable(b', b);
  }

  // ------------------------------------ the store ------------------------------------

  class Store {
    var entries: map<string, Entry>
    var version: nat
    const self: NodeId
    var config: Config

    ghost predicate Valid()
      reads this
    {
      TextKeyed(entries)
    }

    ghost function Value(): Replica
      reads this
      requires Valid()
    {
      Replica(self, ByEndpoint(entries), version, config.knobs.tSuspect)
    }

    constructor (self: NodeId, cfg: Config, now: int)
      ensures Valid() && Value() == NewReplica(self, cfg.knobs.tSuspect, now)
      ensures config == cfg && this.self == self
    {
      var selfEntry := Entry(self, FIRST_INCARNATION, Alive, now);
      this.self := self;
      entries := map[EndpointToString(self.ep) := selfEntry];
      version := 1;
      config := cfg;
      new;
      assert map[][EndpointToString(self.ep) := selfEntry] == entries;
      TextUpdate(map[], selfEntry);
    }

    /** Copies the rows in whatever order the map yields them, stamping the own row on the way. */
    method Snapshot(now: int) returns (list: seq<Entry>, id: NodeId)
      requires Valid()
      modifies this`entries
      ensures Valid() && Value() == Refresh(old(Value()), now)
      ensures Listing(list, Value().table) && id == self
    {
      hide EndpointToString, ByEndpoint, Refresh;
      ghost var m := entries;
      list := [];
      var todo := entries.Keys;
      while todo != {}
        invariant todo <= entries.Keys == m.Keys
        invariant forall k | k in m :: entries[k] == if k in todo then m[k] else Stamped(m[k], now)
        invariant forall i | 0 <= i < |list| ::
          var k := EndpointToString(list[i].id.ep); k in m && k !in todo && list[i] == Stamped(m[k], now)
        invariant forall k | k in m && k !in todo :: Stamped(m[k], now) in list
        invariant forall i, j | 0 <= i < j < |list| :: list[i].id.ep != list[j].id.ep
      {
        var k :| k in todo;
        var entry := entries[k];
        if entry.id == self && entry.state != Left {
          entry := entry.(last := now);
          entries := entries[k := entry];
        }
        assert entry == Stamped(m[k], now);
        list := list + [entry];
        todo := todo - {k};
      }
      id := self;
      StampedTable(m, entries, now);
      ListedTable(list, m, entries, now);
    }

    ghost function Stamped(e: Entry, now: int): Entry {
      if e.id == self && e.state != Left then e.(last := now) else e
    }

    lemma StampedTable(m: map<string, Entry>, m': map<string, Entry>, now: int)
      requires TextKeyed(m) && m'.Keys == m.Keys && forall k | k in m :: m'[k] == Stamped(m[k], now)
      ensures TextKeyed(m')
      ensures forall v: nat, t: int ::
        Refresh(Replica(self, ByEndpoint(m), v, t), now) == Replica(self, ByEndpoint(m'), v, t)
    {
      forall v: nat, t: int
        ensures Refresh(Replica(self, ByEndpoint(m), v, t), now) == Replica(self, ByEndpoint(m'), v, t)
      {
        var r := Refresh(Replica(self, ByEndpoint(m), v, t), now);
        TextLookup(m, self.ep);
        forall ep ensures Get(ByEndpoint(m'), ep) == Get(r.table, ep) {
          TextLookup(m, ep);
          TextLookup(m', ep);
        }
        SameTable(ByEndpoint(m'), r.table);
      }
    }

    lemma ListedTable(list: seq<Entry>, m: map<string, Entry>, m': map<string, Entry>, now: int)
      requires TextKeyed(m) && TextKeyed(m') && m'.Keys == m.Keys && forall k | k in m :: m'[k] == Stamped(m[k], now)
      requires forall i | 0 <= i < |list| ::
        var k := EndpointToString(list[i].id.ep); k in m && list[i] == Stamped(m[k], now)
      requires forall k | k in m :: Stamped(m[k], now) in list
      requires forall i, j | 0 <= i < j < |list| :: list[i].id.ep != list[j].id.ep
      ensures Listing(list, ByEndpoint(m'))
    {
      var t := ByEndpoint(m');
      forall i | 0 <= i < |list| ensures list[i].id.ep in t && t[list[i].id.ep] == list[i] {
        TextLookup(m', list[i].id.ep);
      }
      forall ep | ep in t ensures t[ep] in list {
        TextLookup(m', ep);
      }
    }

    method ApplyLocked(id: NodeId, inc: nat, state: State, now: int)
      requires Valid()
      modifies this`entries, this`version
      ensures Valid() && Value() == Apply(old(Value()), id, inc, state, now)
      ensures var key := EndpointToString(id.ep);
        if key in old(entries) then
          var x := old(entries)[key];
          && entries == old(entries)[key := Entry(x.id, inc, state, if state == Alive || state == Left then now else x.last)]
          && version == old(version) + 1
        else entries == old(entries) && version == old(version)
    {
      var key := EndpointToString(id.ep);
      TextLookup(entries, id.ep);
      if key in entries {
        var entry := entries[key];
        if state == Alive || state == Left {
          entry := entry.(last := now);
        }
        entry := entry.(state := state, inc := inc);
        TextUpdate(entries, entry);
        entries := entries[key := entry];
        version := version + 1;
      }
    }

    method RemoveEntry(id: NodeId)
      requires Valid()
      modifies this`entries, this`version
      ensures Valid() && Value() == Remove(old(Value()), id)
      ensures entries == old(entries) - {EndpointToString(id.ep)}
      ensures version == old(version) + if EndpointToString(id.ep) in old(entries) then 1 else 0
    {
      var key := EndpointToString(id.ep);
      TextLookup(entries, id.ep);
      if key in entries {
        TextRemove(entries, id.ep);
        entries := entries - {key};
        version := version + 1;
      }
    }

    method Put(e: Entry)
      requires Valid()
      modifies this`entries, this`version
      ensures Valid() && version == old(version) + 1
      ensures entries == old(entries)[EndpointToString(e.id.ep) := e]
      ensures ByEndpoint(entries) == ByEndpoint(old(entries))[e.id.ep := e]
    {
      TextUpdate(entries, e);
      entries := entries[EndpointToString(e.id.ep) := e];
      version := version + 1;
    }

    /** Hearing one entry. Incarnations are compared first and last-update times only at equal ones; an
        accusation of the node itself at its own incarnation is answered with the next. */
    method UpdateMemberEntry(e: Entry, now: int)
      requires Valid()
      modifies this`entries, this`version
      ensures Valid() && Value() == Update(old(Value()), e, now)
    {
      hide EndpointToString, ByEndpoint;
      var key := EndpointToString(e.id.ep);
      TextLookup(entries, e.id.ep);
      if key in entries {
        var existing := entries[key];
        if e.id.ts > existing.id.ts {
          Put(e.(last := now));
          return;
        }
        if e.id.ts < existing.id.ts {
          return;
        }
        if config.knobs.tSuspect != 0 {
          if e.inc > existing.inc {
            Put(e);
          } else if e.inc == existing.inc {
            if e.id == self && (e.state == Suspect || e.state == Failed) {
              SelfBumpIncarnation(now);
            } else if e.last > existing.last {
              Put(e);
            }
          }
        } else if e.last > existing.last {
          Put(e);
        }
      } else {
        Put(e);
      }
    }

    method SelfBumpIncarnation(now: int)
      requires Valid()
      modifies this`entries, this`version
      ensures Valid() && Value() == SelfBumped(old(Value()), now)
      ensures var key := EndpointToString(self.ep);
        if key in old(entries) then
          var x := old(entries)[key];
          entries == old(entries)[key := Entry(x.id, x.inc + 1, Alive, now)] && version == old(version) + 1
        else entries == old(entries) && version == old(version)
    {
      hide EndpointToString, ByEndpoint;
      var key := EndpointToString(self.ep);
      TextLookup(entries, self.ep);
      if key in entries {
        var entry := entries[key];
        Put(entry.(inc := entry.inc + 1, last := now, state := Alive));
      }
    }

    /** Merging a received list, entry by entry. */
    method MergeFullList(list: seq<Entry>, now: int)
      requires Valid()
      modifies this`entries, this`version
      ensures Valid() && Value() == Merge(old(Value()), list, now)
    {
      for i := 0 to |list|
        invariant Valid() && Merge(Value(), list[i..], now) == Merge(old(Value()), list, now)
      {
        assert list[i..][0] == list[i] && list[i..][1..] == list[i + 1..];
        UpdateMemberEntry(list[i], now);
      }
    }

    method Reconfigure(cfg: Config)
      requires Valid()
      modifies this`config
      ensures Valid() && config == cfg && Value() == old(Value()).(tSuspect := cfg.knobs.tSuspect)
    {
      config := cfg;
    }
  }
}
