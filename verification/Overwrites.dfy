/** The one step that can break the invariant, and the exact condition under which it does: an item of a split
    scan that writes a stale incarnation over the row of a newer boot. */
module Overwriting {
  import opened Identity
  import opened Membership
  import opened Scanner
  import opened Cluster
  import opened Claims
  import opened Safety

  /** An item of a split scan marks the row of a running boot, at a higher incarnation than that boot's own. */
  ghost predicate Overwrites(s: Cluster, step: Step) {
    && Marks(s, step) && Runs(s, Target(s, step).id)
    && Item(s, step).inc > OwnInc(s, Target(s, step).id)
  }

  /** An item of a split scan marks a row of another boot than its snapshot shows: what a scanning node could
      check before it acts. */
  predicate CrossesBoots(s: Cluster, step: Step) {
    Marks(s, step) && Target(s, step).id != Item(s, step).id
  }

  /** An overwrite takes a reboot between snapshot and item: the table has moved on to a newer boot. */
  lemma OverwriteCrossesBoots(s: Cluster, step: Step)
    requires Inv(s) && Overwrites(s, step)
    ensures CrossesBoots(s, step) && Target(s, step).id.ts > Item(s, step).id.ts
  {
    hide Judge, EveryClaim;
    var e := Item(s, step);
    InvNode(s, e.id.ep);
    InvNode(s, step.at);
    NodeClaims(s, step.at, Lawful(s));
    assert e in Todo(s.nodes[step.at].work) && Lawful(s)(e);
  }

  lemma NodeTable(n: Node, p: Entry -> bool, k: Endpoint)
    requires NodeAll(n, p) && k in n.store.table
    ensures p(n.store.table[k])
  {
  }

  /** The row an item writes is lawful exactly when it is no such overwrite. */
  lemma OverwriteLawful(s: Cluster, step: Step, s': Cluster, x: Entry, y: Entry, inc: nat)
    requires Inv(s) && Next(s, step, s') && step.ScanItem? && s'.nodes.Keys == s.nodes.Keys
    requires LawfulIn(s', x) && y == x.(state := y.state, inc := inc) && y.state != Unknown
    ensures LawfulIn(s', y) <==> !(Runs(s, x.id) && inc > OwnInc(s, x.id))
  {
    hide Next, EveryClaim;
    var k := x.id.ep;
    if k in s.nodes {
      InvNode(s, k);
      StepOwn(s, step, s', k);
      assert Delivered(step, k) == [];
    }
  }

  lemma MarkOverwrite(s: Cluster, step: Step, s': Cluster)
    requires Marks(s, step) && Inv(s) && Next(s, step, s') && EveryClaim(s, Lawful(s')) && RootedAt(s, step.at)
    ensures EveryClaim(s', Lawful(s')) <==> !Overwrites(s, step)
  {
    hide Next, LawfulIn, Judge, EveryClaim, Rooted;
    ItemSites(s, step, s');
    var (at, n, e, x) := (step.at, s.nodes[step.at], Item(s, step), Target(s, step));
    var z := ItemSwept(n, s.clock);
    NodeClaims(s, at, Lawful(s'));
    assert Lawful(s')(x);
    MarkIsBacked(e, n.store.self, n.work.tick, n.work.timers);
    var y := z.store.table[e.id.ep];
    TargetKeyed(s, step);
    OverwriteLawful(s, step, s', x, y, e.inc);
    if LawfulIn(s', y) {
      assert NodeAll(z, Lawful(s'));
      PutClaims(s, at, z, Lawful(s'));
    } else if EveryClaim(s', Lawful(s')) {
      NodeClaims(s', at, Lawful(s'));
      NodeTable(z, Lawful(s'), e.id.ep);
      assert false;
    }
  }

  lemma TargetKeyed(s: Cluster, step: Step)
    requires Marks(s, step) && RootedAt(s, step.at)
    ensures Target(s, step).id.ep == Item(s, step).id.ep
  {
  }

  /** An item of a split scan keeps incarnation authority exactly when it is no overwrite. */
  lemma ItemKeepsAuthority(s: Cluster, step: Step, s': Cluster)
    requires Inv(s) && step.ScanItem? && Next(s, step, s')
    ensures EveryClaim(s', Lawful(s')) <==> !Overwrites(s, step)
  {
    hide Next, EveryClaim, LawfulIn, Judge;
    ItemSites(s, step, s');
    InvNode(s, step.at);
    LawfulMonoAll(s, step, s');
    if Marks(s, step) {
      MarkOverwrite(s, step, s');
    } else {
      var n := s.nodes[step.at];
      var z := ItemSwept(n, s.clock);
      NodeClaims(s, step.at, Lawful(s'));
      assert NodeAll(z, Lawful(s'));
      PutClaims(s, step.at, z, Lawful(s'));
    }
  }

  /** The joint invariant of tables, messages and scans in progress is kept by every step but an overwrite, and
      broken by every overwrite. */
  lemma InvStep(s: Cluster, step: Step, s': Cluster)
    requires Inv(s) && Next(s, step, s')
    ensures Inv(s') <==> !Overwrites(s, step)
  {
    hide Next, EveryClaim, NodeOk;
    NodesStep(s, step, s');
    if step.ScanItem? {
      ItemKeepsAuthority(s, step, s');
    } else {
      ClaimsStep(s, step, s');
    }
  }
}
