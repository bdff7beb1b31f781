/** What holds in every valid run, whoever reboots and whatever scan is split: every node holds its own row
    under its own identity, every claim names a boot that happened, and boots only move forward. */
module Rooting {
  import opened Identity
  import opened Membership
  import opened Scanner
  import opened Settings
  import opened Cluster
  import opened Claims

  // ------------------------- the own row, node by node -------------------------

  /** A node's own row is its own, and dated. */
  ghost predicate Anchored(n: Node, now: int) {
    HasOwn(n) && Own(n).id == n.store.self && Own(n).last <= now && Own(n).state != Unknown
  }

  /** A claim that cannot take the node's own row over. */
  ghost function Harmless(self: NodeId, now: int): Entry -> bool {
    (c: Entry) => c.id.ep == self.ep ==> c.id.ts <= self.ts && c.last <= now && c.state != Unknown
  }

  lemma {:induction false} MergeAnchored(r: Replica, list: seq<Entry>, now: int)
    requires r.self.ep in r.table && ListAll(list, Harmless(r.self, now))
    requires var x := r.table[r.self.ep]; x.id == r.self && x.last <= now && x.state != Unknown
    ensures var m := Merge(r, list, now);
      m.self == r.self && r.self.ep in m.table
      && var z := m.table[r.self.ep]; z.id == r.self && z.last <= now && z.state != Unknown
    decreases |list|
  {
    if list == [] {
    } else {
      assert list[0] in list && Harmless(r.self, now)(list[0]);
      MergeAnchored(Update(r, list[0], now), list[1..], now);
    }
  }

  lemma HeardAnchored(n: Node, list: seq<Entry>, now: int)
    requires Keyed(n.store.table) && Anchored(n, now) && ListAll(list, Harmless(n.store.self, now))
    ensures var n' := Heard(n, list, now);
      Keyed(n'.store.table) && Anchored(n', now) && n'.store.self == n.store.self
  {
    MergeAnchored(n.store, list, now);
    MergeKeeps(n.store, list, now);
  }

  /** A node comes out of a step rooted and anchored, under the same boot. */
  ghost predicate StaysRooted(n: Node, n': Node, now: int) {
    Rooted(n') && Anchored(n', now) && n'.store.self == n.store.self
  }

  lemma SnappedRooted(n: Node, now: int)
    requires Rooted(n) && Anchored(n, now)
    ensures StaysRooted(n, Snapped(n, now), now)
  {
  }

  lemma ReceivedRooted(n: Node, m: Message, now: int)
    requires Rooted(n) && Anchored(n, now) && n.started && ListAll(m.list, Harmless(n.store.self, now))
    ensures StaysRooted(n, Received(n, m, now), now) && Received(n, m, now).started
  {
    var c := Configured(n, m.cfg);
    if !HasLeft(c.store) {
      SnappedRooted(c, now);
      HeardAnchored(Snapped(c, now), m.list, now);
    }
  }

  lemma WelcomedRooted(n: Node, d: Dto, reply: seq<Entry>, now: int)
    requires Rooted(n) && Anchored(n, now) && ListAll(reply, Harmless(n.store.self, now))
    ensures StaysRooted(n, Welcomed(n, d, reply, now), now)
  {
    SnappedRooted(n, now);
    HeardAnchored(Configured(Snapped(n, now), d), reply, now);
  }

  lemma GreetedRooted(n: Node, ask: seq<Entry>, now: int)
    requires Rooted(n) && Anchored(n, now) && n.started && ListAll(ask, Harmless(n.store.self, now))
    ensures StaysRooted(n, Greeted(n, ask, now), now)
  {
    HeardAnchored(n, ask, now);
    SnappedRooted(Heard(n, ask, now), now);
  }

  lemma ScannedRooted(n: Node, now: int, tick: int)
    requires Rooted(n) && Anchored(n, now) && ScanOnce(n.store, now, tick, n.timers).Scanned?
    ensures StaysRooted(n, n.(store := ScanOnce(n.store, now, tick, n.timers).store), now)
  {
  }

  lemma ItemRooted(n: Node, now: int)
    requires Rooted(n) && Anchored(n, now) && n.work.Sweeping? && n.work.todo != []
    ensures StaysRooted(n, ItemSwept(n, now), now)
  {
    var e := n.work.todo[0];
    assert e in n.work.todo;
    assert forall c | c in n.work.todo[1..] :: c in n.work.todo;
  }

  lemma BegunRooted(n: Node, now: int, tick: int, list: seq<Entry>)
    requires Rooted(n) && Anchored(n, now) && !HasLeft(n.store) && Listing(list, Snapped(n, now).store.table)
    ensures StaysRooted(n, Snapped(n, now).(work := if list == [] then Idle else Sweeping(tick, n.timers, list)), now)
  {
  }

  lemma DepartedRooted(n: Node, now: int)
    requires Rooted(n) && Anchored(n, now) && n.started
    ensures StaysRooted(n, Departed(n, now), now)
  {
  }

  // ------------------------------ the base invariant ------------------------------

  ghost predicate AnchoredAt(s: Cluster, at: Endpoint)
    requires at in s.nodes
  {
    RootedAt(s, at) && Anchored(s.nodes[at], s.clock)
  }

  ghost predicate Base(s: Cluster) {
    (forall at | at in s.nodes :: AnchoredAt(s, at)) && EveryClaim(s, Dated(s))
  }

  lemma BaseNode(s: Cluster, at: Endpoint)
    requires Base(s) && at in s.nodes
    ensures AnchoredAt(s, at)
  {
  }

  lemma DatedIsHarmless(s: Cluster, at: Endpoint, list: seq<Entry>)
    requires at in s.nodes && Seated(s, at) && ListAll(list, Dated(s))
    ensures ListAll(list, Harmless(s.nodes[at].store.self, s.clock))
  {
    forall c | c in list ensures Harmless(s.nodes[at].store.self, s.clock)(c) {
      assert Dated(s)(c);
    }
  }

  lemma SoupHarmless(s: Cluster, at: Endpoint, m: Message)
    requires Base(s) && at in s.nodes && m in s.soup
    ensures ListAll(m.list, Harmless(s.nodes[at].store.self, s.clock))
  {
    BaseNode(s, at);
    assert ListAll(m.list, Dated(s));
    DatedIsHarmless(s, at, m.list);
  }

  lemma RestampDated(s: Cluster, now: int)
    requires now <= s.clock
    ensures RestampClosed(Dated(s), now)
  {
  }

  lemma ShownDated(s: Cluster, at: Endpoint)
    requires at in s.nodes && AnchoredAt(s, at)
    ensures DatedIn(s, Shown(s.nodes[at], s.clock)) && DatedIn(s, Own(s.nodes[at]))
  {
  }

  /** What the two sides of a join send each other is dated. */
  lemma JoinDated(s: Cluster, step: Step, s': Cluster)
    requires Base(s) && step.Join? && Next(s, step, s')
    ensures ListAll(step.ask, Dated(s)) && ListAll(step.reply, Dated(s))
  {
    hide Next, EveryClaim, DatedIn;
    JoinSites(s, step, s');
    var Join(at, via, ask, reply, answered) := step;
    BaseNode(s, at);
    BaseNode(s, via);
    ShownDated(s, at);
    ShownDated(s, via);
    RestampDated(s, s.clock);
    SnappedClaims(s, at, Dated(s));
    ListingClaims(ask, Snapped(s.nodes[at], s.clock).store.table, Dated(s));
    GreetedClaims(s, at, via, ask, Dated(s));
    ListingClaims(reply, Greeted(s.nodes[via], ask, s.clock).store.table, Dated(s));
  }

  lemma JoinRooted(s: Cluster, step: Step, s': Cluster)
    requires Base(s) && step.Join? && Next(s, step, s')
    ensures step.at in s.nodes && step.via in s.nodes && step.at in s'.nodes && step.via in s'.nodes
    ensures StaysRooted(s.nodes[step.at], s'.nodes[step.at], s.clock)
    ensures StaysRooted(s.nodes[step.via], s'.nodes[step.via], s.clock)
  {
    hide EveryClaim, Listing, DatedIn;
    JoinDated(s, step, s');
    JoinSites(s, step, s');
    var Join(at, via, ask, reply, answered) := step;
    BaseNode(s, at);
    BaseNode(s, via);
    DatedIsHarmless(s, via, ask);
    DatedIsHarmless(s, at, reply);
    GreetedRooted(s.nodes[via], ask, s.clock);
    SnappedRooted(s.nodes[at], s.clock);
    WelcomedRooted(s.nodes[at], ToDto(Greeted(s.nodes[via], ask, s.clock).cfg), reply, s.clock);
  }

  lemma ReceiveRooted(s: Cluster, step: Step, s': Cluster)
    requires Base(s) && step.Receive? && Next(s, step, s')
    ensures step.at in s.nodes && step.at in s'.nodes
    ensures StaysRooted(s.nodes[step.at], s'.nodes[step.at], s.clock)
  {
    hide EveryClaim, Answers;
    var Receive(at, m, ack) := step;
    SoupHarmless(s, at, m);
    BaseNode(s, at);
    ReceivedRooted(s.nodes[at], m, s.clock);
    SnappedRooted(Received(s.nodes[at], m, s.clock), s.clock);
  }

  lemma ActorRooted(s: Cluster, step: Step, s': Cluster, at: Endpoint)
    requires Next(s, step, s') && at in s.nodes && at in s'.nodes && AnchoredAt(s, at) && at in Actors(step)
    requires !step.Receive? && !step.Join?
    ensures StaysRooted(s.nodes[at], s'.nodes[at], s.clock)
  {
    hide ApplyRuntime;
    var n := s.nodes[at];
    match step
    case Advance(_) =>
    case Crash(_) =>
    case Boot(_, _) =>
    case Scan(_, tick) => ScannedRooted(n, s.clock, tick);
    case ScanItem(_) => ItemRooted(n, s.clock);
    case Send(_, _) => SnappedRooted(n, s.clock);
    case BeginScan(_, tick, list) => BegunRooted(n, s.clock, tick, list);
    case Leave(_) => DepartedRooted(n, s.clock);
    case Admin(_, _) =>
  }

  lemma BystanderRooted(s: Cluster, step: Step, s': Cluster, at: Endpoint)
    requires Next(s, step, s') && at in s.nodes && at !in Actors(step) && AnchoredAt(s, at)
    ensures at in s'.nodes && StaysRooted(s.nodes[at], s'.nodes[at], s.clock)
  {
    BystanderOwn(s, step, s', at);
  }

  /** No step takes a node's own row away from it, or its identity. */
  lemma StepRooted(s: Cluster, step: Step, s': Cluster, at: Endpoint)
    requires Base(s) && Next(s, step, s') && at in s.nodes && at in s'.nodes
    ensures StaysRooted(s.nodes[at], s'.nodes[at], s.clock)
  {
    hide Next, StaysRooted, EveryClaim;
    BaseNode(s, at);
    if at !in Actors(step) {
      BystanderRooted(s, step, s', at);
    } else if step.Receive? {
      ReceiveRooted(s, step, s');
    } else if step.Join? {
      JoinRooted(s, step, s');
    } else {
      ActorRooted(s, step, s', at);
    }
  }

  lemma BootRooted(s: Cluster, step: Step, s': Cluster, at: Endpoint)
    requires Next(s, step, s') && at in s'.nodes && at !in s.nodes
    ensures AnchoredAt(s', at)
    ensures step.Boot? && step.id.ep == at && s'.nodes[at] == BootNode(step.id, step.cfg, s.clock)
    ensures Own(s'.nodes[at]).inc == FIRST_INCARNATION
  {
  }

  lemma NodesAnchored(s: Cluster, step: Step, s': Cluster)
    requires Base(s) && Next(s, step, s')
    ensures forall at | at in s'.nodes :: AnchoredAt(s', at)
  {
    hide Next, EveryClaim, Rooted;
    forall at | at in s'.nodes ensures AnchoredAt(s', at) {
      if at in s.nodes {
        BaseNode(s, at);
        StepRooted(s, step, s', at);
        BootsStep(s, step, s', at);
      } else {
        BootRooted(s, step, s', at);
      }
    }
  }

  lemma DatedMono(s: Cluster, step: Step, s': Cluster)
    requires Base(s) && Next(s, step, s')
    ensures EveryClaim(s, Dated(s'))
  {
    hide Next, EveryClaim;
    forall c ensures Dated(s)(c) ==> Dated(s')(c) {
      BootsStep(s, step, s', c.id.ep);
    }
    EveryClaimWeaken(s, Dated(s), Dated(s'));
  }

  lemma DatedOwnRows(s: Cluster, step: Step, s': Cluster)
    requires Base(s) && Next(s, step, s') && forall at | at in s'.nodes :: AnchoredAt(s', at)
    ensures OwnRowsCarry(Dated(s'), s, step, s')
  {
    hide Next, EveryClaim, Rooted;
    forall at | at in Actors(step)
      ensures at in s.nodes ==> HasOwn(s.nodes[at]) && DatedIn(s', Shown(s.nodes[at], s.clock))
      ensures at in s'.nodes ==> HasOwn(s'.nodes[at]) && DatedIn(s', Own(s'.nodes[at]))
    {
      BootsStep(s, step, s', at);
      if at in s.nodes {
        BaseNode(s, at);
        ShownDated(s, at);
      }
      if at in s'.nodes {
        ShownDated(s', at);
      }
    }
  }

  lemma DatedMarks(s: Cluster, step: Step, s': Cluster)
    ensures MarksCarry(Dated(s'), s, step)
  {
  }

  lemma BaseStep(s: Cluster, step: Step, s': Cluster)
    requires Base(s) && Next(s, step, s')
    ensures Base(s')
  {
    hide Next, EveryClaim, AnchoredAt, OwnRowsCarry, MarksCarry, RestampClosed;
    NodesAnchored(s, step, s');
    DatedMono(s, step, s');
    DatedOwnRows(s, step, s');
    DatedMarks(s, step, s');
    BootsStep(s, step, s', Endpoint(NoAddr, 0));
    RestampDated(s', s.clock);
    BaseActors(s, step);
    StepClaims(s, step, s', Dated(s'));
  }

  lemma BaseActors(s: Cluster, step: Step)
    requires Base(s)
    ensures ActorsOk(s, step)
  {
    forall at | at in Actors(step) && at in s.nodes ensures RootedAt(s, at) {
      BaseNode(s, at);
    }
  }

  lemma InitBase(s: Cluster)
    requires Init(s)
    ensures Base(s)
  {
  }

  /** In every state of every valid run each node holds its own row under its own identity, and every claim is
      dated. */
  lemma {:induction false} RunBase(run: Run, i: nat)
    requires ValidRun(run) && i < |run.states|
    ensures Base(run.states[i])
  {
    hide Next, Base;
    if i == 0 {
      InitBase(run.states[0]);
    } else {
      RunBase(run, i - 1);
      assert Next(run.states[i - 1], run.steps[i - 1], run.states[i]);
      BaseStep(run.states[i - 1], run.steps[i - 1], run.states[i]);
    }
  }

  lemma RunRooted(run: Run, i: nat, at: Endpoint)
    requires ValidRun(run) && i < |run.states| && at in run.states[i].nodes
    ensures AnchoredAt(run.states[i], at)
  {
    RunBase(run, i);
    BaseNode(run.states[i], at);
  }

  // ------------------------------- one boot over time -------------------------------

  lemma {:induction false} BootsOver(run: Run, i: nat, j: nat, k: Endpoint)
    requires ValidRun(run) && i <= j < |run.states| && k in run.states[i].boots
    ensures k in run.states[j].boots && run.states[i].boots[k] <= run.states[j].boots[k]
    decreases j - i
  {
    if i == j {
    } else {
      assert Next(run.states[i], run.steps[i], run.states[i + 1]);
      BootsStep(run.states[i], run.steps[i], run.states[i + 1], k);
      BootsOver(run, i + 1, j, k);
    }
  }

  /** An identity starts running only by booting, above every earlier boot of its endpoint. */
  lemma StartsByBooting(s: Cluster, step: Step, s': Cluster, id: NodeId)
    requires Base(s) && Next(s, step, s') && Runs(s', id) && !Runs(s, id)
    ensures id.ep in s.boots ==> s.boots[id.ep] < id.ts
    ensures step.Boot? && step.id == id && s'.nodes[id.ep] == BootNode(id, step.cfg, s.clock)
    ensures OwnInc(s', id) == FIRST_INCARNATION
  {
    hide Next, EveryClaim;
    StepSites(s, step, s');
    if id.ep in s.nodes {
      StepRooted(s, step, s', id.ep);
      assert false;
    }
    BootRooted(s, step, s', id.ep);
  }

  /** A boot that runs at two moments runs at every moment in between. */
  lemma {:induction false} RunsBetween(run: Run, i: nat, k: nat, j: nat, id: NodeId)
    requires ValidRun(run) && i <= k <= j < |run.states|
    requires Runs(run.states[i], id) && Runs(run.states[j], id)
    ensures Runs(run.states[k], id)
    decreases j - k
  {
    if k == j {
    } else {
      RunsBetween(run, i, k + 1, j, id);
      assert Next(run.states[k], run.steps[k], run.states[k + 1]);
      if !Runs(run.states[k], id) {
        RunBase(run, k);
        StartsByBooting(run.states[k], run.steps[k], run.states[k + 1], id);
        RunRooted(run, i, id.ep);
        BootsOver(run, i, k, id.ep);
        assert false;
      }
    }
  }
}
