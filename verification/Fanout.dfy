/** Whom a node contacts on one tick. */
module Fanout {
  import opened Identity
  import opened Membership
  import opened Scanner

  /** The rows of a snapshot other than the node's own. */
  function PeerRows(list: seq<Entry>, self: NodeId): seq<Entry> {
    if list == [] then []
    else (if list[0].id == self then [] else [list[0]]) + PeerRows(list[1..], self)
  }

  function Texts(rows: seq<Entry>): seq<string> {
    seq(|rows|, i requires 0 <= i < |rows| => EndpointToString(rows[i].id.ep))
  }

  lemma TextsAppend(rows: seq<Entry>, e: Entry)
    ensures Texts(rows + [e]) == Texts(rows) + [EndpointToString(e.id.ep)]
  {
    hide EndpointToString;
  }

  lemma {:induction false} PeerRowsAppend(list: seq<Entry>, e: Entry, self: NodeId)
    ensures PeerRows(list + [e], self) == PeerRows(list, self) + (if e.id == self then [] else [e])
  {
    if list == [] {
      assert list + [e] == [e] && PeerRows([e][1..], self) == [];
    } else {
      PeerRowsAppend(list[1..], e, self);
      assert (list + [e])[1..] == list[1..] + [e];
    }
  }

  lemma PeersOfNone(self: NodeId)
    ensures Texts(PeerRows([], self)) == []
  {
  }

  method ResolvePeers(list: seq<Entry>, self: NodeId) returns (peers: seq<string>)
    ensures peers == Texts(PeerRows(list, self))
  {
    hide EndpointToString, Texts, PeerRows;
    peers := [];
    PeersOfNone(self);
    for i := 0 to |list|
      invariant peers == Texts(PeerRows(list[..i], self))
    {
      PeerRowsAppend(list[..i], list[i], self);
      assert list[..i + 1] == list[..i] + [list[i]];
      if list[i].id == self {
        assert PeerRows(list[..i], self) + [] == PeerRows(list[..i], self);
        continue;
      }
      TextsAppend(PeerRows(list[..i], self), list[i]);
      peers := peers + [EndpointToString(list[i].id.ep)];
    }
    assert list[..|list|] == list;
  }

  /** Where there is somebody to send to, the list shows a peer. */
  lemma {:induction false} PeersAreListed(list: seq<Entry>, self: NodeId)
    ensures Texts(PeerRows(list, self)) != [] ==> exists e :: e in list && e.id != self
  {
    if list == [] {
    } else if list[0].id == self {
      PeersAreListed(list[1..], self);
    } else {
      assert list[0] in list;
    }
  }

  ghost predicate Permutation(perm: seq<nat>, n: nat) {
    && |perm| == n
    && (forall i | 0 <= i < n :: perm[i] < n)
    && (forall i, j | 0 <= i < j < n :: perm[i] != perm[j])
  }

  /** The targets are the first peers of the permutation: as many as the fan-out says, or all of them. */
  ghost predicate Drawn(targets: seq<string>, peers: seq<string>, perm: seq<nat>, fanout: int) {
    && Permutation(perm, |peers|)
    && |targets| == (if fanout < 0 then 0 else if fanout <= |peers| then fanout else |peers|)
    && forall i | 0 <= i < |targets| :: targets[i] == peers[perm[i]]
  }

  /** The first few of a random permutation of the peers. */
  method SelectTargets(peers: seq<string>, perm: seq<nat>, fanout: int) returns (targets: seq<string>)
    requires Permutation(perm, |peers|)
    ensures Drawn(targets, peers, perm, fanout)
  {
    targets := [];
    if |peers| > 0 {
      var k := fanout;
      if k > |perm| {
        k := |perm|;
      }
      var i := 0;
      while i < k
        invariant 0 <= i && (i <= k || i == 0) && |targets| == i
        invariant forall j | 0 <= j < i :: targets[j] == peers[perm[j]]
      {
        targets := targets + [peers[perm[i]]];
        i := i + 1;
      }
    }
  }

  // ------------------------------ permutations are onto ------------------------------

  function Under(n: nat): set<nat> {
    if n == 0 then {} else Under(n - 1) + {n - 1}
  }

  lemma {:induction false} UnderSize(n: nat)
    ensures |Under(n)| == n && forall i: nat :: i in Under(n) <==> i < n
  {
    if n == 0 {
    } else {
      UnderSize(n - 1);
    }
  }

  function Values(p: seq<nat>): set<nat> {
    set x | x in p
  }

  lemma {:induction false} ValuesSize(p: seq<nat>)
    requires forall i, j | 0 <= i < j < |p| :: p[i] != p[j]
    ensures |Values(p)| == |p|
  {
    if p == [] {
    } else {
      var (x, rest) := (p[0], p[1..]);
      assert p == [x] + rest;
      assert x !in rest by {
        assert forall i | 0 <= i < |rest| :: rest[i] == p[i + 1];
      }
      ValuesSize(rest);
      assert Values(p) == Values(rest) + {x};
    }
  }

  /** Distinct numbers below `n` that leave one out are fewer than `n`. */
  lemma OneMissing(p: seq<nat>, n: nat, v: nat)
    requires (forall i | 0 <= i < |p| :: p[i] < n) && (forall i, j | 0 <= i < j < |p| :: p[i] != p[j])
    requires v < n && v !in p
    ensures |p| < n
  {
    ValuesSize(p);
    UnderSize(n);
    var rest := Under(n) - {v};
    assert rest == Values(p) + (rest - Values(p));
  }

  lemma PermutationOnto(perm: seq<nat>, n: nat, v: nat)
    requires Permutation(perm, n) && v < n
    ensures v in perm
  {
    if v !in perm {
      OneMissing(perm, n, v);
    }
  }

  ghost predicate Distinct(rows: seq<Entry>) {
    forall i, j | 0 <= i < j < |rows| :: rows[i].id.ep != rows[j].id.ep
  }

  lemma DistinctTail(e: Entry, rest: seq<Entry>)
    requires Distinct([e] + rest)
    ensures Distinct(rest) && forall c | c in rest :: c.id.ep != e.id.ep
  {
    var list := [e] + rest;
    assert forall i | 0 <= i < |rest| :: list[i + 1] == rest[i];
    assert list[0] == e;
  }

  lemma {:induction false} PeerRowsFacts(list: seq<Entry>, self: NodeId)
    requires Distinct(list)
    ensures var p := PeerRows(list, self);
      && Distinct(p) && (forall e | e in p :: e in list && e.id != self)
      && |p| == |list| - (if exists e | e in list :: e.id == self then 1 else 0)
  {
    if list == [] {
    } else {
      var (e, rest) := (list[0], list[1..]);
      assert list == [e] + rest;
      DistinctTail(e, rest);
      PeerRowsFacts(rest, self);
      assert forall c :: c in list <==> c == e || c in rest;
    }
  }

  lemma {:induction false} DistinctCount(list: seq<Entry>)
    requires Distinct(list)
    ensures |EndpointsOf(list)| == |list|
  {
    if list == [] {
    } else {
      var (e, rest) := (list[0], list[1..]);
      assert list == [e] + rest;
      DistinctTail(e, rest);
      DistinctCount(rest);
      assert EndpointsOf(list) == EndpointsOf(rest) + {e.id.ep};
    }
  }

  lemma ListingSize(list: seq<Entry>, t: Table)
    requires Keyed(t) && Listing(list, t)
    ensures |list| == |t|
  {
    DistinctCount(list);
    assert EndpointsOf(list) == t.Keys by {
      forall k | k in t ensures k in EndpointsOf(list) {
        assert t[k] in list && t[k].id.ep == k;
      }
    }
  }

  /** What one tick sends to, given a snapshot of a table that holds the own row: as many peers as the
      fan-out allows, or all of them; pairwise different, each in the table, and never the node itself. */
  ghost predicate GoodTargets(targets: seq<string>, t: Table, self: NodeId, fanout: int) {
    && (fanout < 0 ==> targets == [])
    && (0 <= fanout <= |t| - 1 ==> |targets| == fanout)
    && (fanout >= |t| - 1 ==>
          |targets| == |t| - 1 && forall k | k in t && k != self.ep :: EndpointToString(k) in targets)
    && (forall i, j | 0 <= i < j < |targets| :: targets[i] != targets[j])
    && (forall i | 0 <= i < |targets| :: targets[i] != EndpointToString(self.ep))
    && (forall i | 0 <= i < |targets| :: exists k :: k in t && targets[i] == EndpointToString(k))
  }

  lemma PeerRowsComplete(list: seq<Entry>, self: NodeId, e: Entry)
    requires e in list && e.id != self
    ensures e in PeerRows(list, self)
  {
  }

  lemma TargetsAreGood(list: seq<Entry>, t: Table, self: NodeId, perm: seq<nat>, fanout: int, targets: seq<string>)
    requires Keyed(t) && Listing(list, t) && self.ep in t && t[self.ep].id == self
    requires Drawn(targets, Texts(PeerRows(list, self)), perm, fanout)
    ensures |t| > 0 && GoodTargets(targets, t, self, fanout)
  {
    hide EndpointToString;
    var rows := PeerRows(list, self);
    PeerRowsFacts(list, self);
    ListingSize(list, t);
    assert t[self.ep] in list;
    assert |rows| == |t| - 1;
    TargetsApart(list, t, self, perm, fanout, targets);
    if fanout >= |t| - 1 {
      forall k | k in t && k != self.ep ensures EndpointToString(k) in targets {
        TargetsCover(list, t, self, perm, fanout, targets, k);
      }
    }
  }

  lemma TargetsApart(list: seq<Entry>, t: Table, self: NodeId, perm: seq<nat>, fanout: int, targets: seq<string>)
    requires Keyed(t) && Listing(list, t) && self.ep in t && t[self.ep].id == self
    requires Drawn(targets, Texts(PeerRows(list, self)), perm, fanout)
    ensures forall i, j | 0 <= i < j < |targets| :: targets[i] != targets[j]
    ensures forall i | 0 <= i < |targets| ::
      targets[i] != EndpointToString(self.ep) && exists k :: k in t && targets[i] == EndpointToString(k)
  {
    hide EndpointToString;
    var rows := PeerRows(list, self);
    PeerRowsFacts(list, self);
    forall i | 0 <= i < |rows| ensures rows[i].id.ep in t && rows[i].id.ep != self.ep {
      assert rows[i] in list;
    }
    forall i, j | 0 <= i < j < |targets| ensures targets[i] != targets[j] {
      var (a, b) := (perm[i], perm[j]);
      if targets[i] == targets[j] {
        EndpointKeyInjective(rows[a].id.ep, rows[b].id.ep);
      }
    }
    forall i | 0 <= i < |targets|
      ensures targets[i] != EndpointToString(self.ep) && exists k :: k in t && targets[i] == EndpointToString(k)
    {
      var e := rows[perm[i]];
      assert e.id.ep in t && targets[i] == EndpointToString(e.id.ep);
      if targets[i] == EndpointToString(self.ep) {
        EndpointKeyInjective(e.id.ep, self.ep);
      }
    }
  }

  /** With a fan-out that large nobody is left out. */
  lemma TargetsCover(
    list: seq<Entry>, t: Table, self: NodeId, perm: seq<nat>, fanout: int, targets: seq<string>, k: Endpoint)
    requires Keyed(t) && Listing(list, t) && k in t && k != self.ep
    requires Drawn(targets, Texts(PeerRows(list, self)), perm, fanout) && fanout >= |PeerRows(list, self)|
    ensures EndpointToString(k) in targets
  {
    hide EndpointToString;
    var rows := PeerRows(list, self);
    PeerRowsComplete(list, self, t[k]);
    var v :| 0 <= v < |rows| && rows[v] == t[k];
    PermutationOnto(perm, |rows|, v);
    var i :| 0 <= i < |perm| && perm[i] == v;
    assert targets[i] == EndpointToString(k);
  }
}
