/** Own-entry safety, incarnation authority and refutation accounting, over every run. */
module Safety {
  import opened Identity
  import opened Membership
  import opened Scanner
  import opened Settings
  import opened Cluster
  import opened Claims

  // ------------------------- the own row, node by node -------------------------

  /** A node comes out of a step still sound, under the same boot, its incarnation raised by `raise`;
      once left it has left for good, and only a departure makes it leave; its row is stamped now or not at all. */
  ghost predicate Kept(n: Node, n': Node, raise: nat, departs: bool, now: int) {
    && HasOwn(n) && Sound(n') && n'.store.self == n.store.self
    && Own(n').inc == Own(n).inc + raise
    && (Own(n').last == Own(n).last || Own(n').last == now)
    && (HasLeft(n'.store) <==> HasLeft(n.store) || departs)
  }

  /** A claim that cannot surprise the node itself. */
  ghost function Fair(n: Node, now: int): Entry -> bool
    requires HasOwn(n)
  {
    (c: Entry) => c.id.ep == n.store.self.ep ==>
      c.id.ts <= n.store.self.ts && c.last <= now && (c.id == n.store.self ==> c.inc <= Own(n).inc)
  }

  /** A node that has not left refutes at most once per list, and is otherwise untouched by it. */
  lemma HeardOwn(n: Node, list: seq<Entry>, now: int)
    requires Sound(n) && !HasLeft(n.store) && Own(n).last == now && ListAll(list, Fair(n, now))
    ensures var n' := Heard(n, list, now);
      && Keyed(n'.store.table) && n'.store.self == n.store.self && n'.store.tSuspect == n.store.tSuspect
      && HasOwn(n')
      && Own(n') == if n.store.tSuspect != 0 && Refutable(list, n.store.self, Own(n).inc) then Bumped(Own(n), now) else Own(n)
  {
    forall c | c in list && c.id.ep == n.store.self.ep
      ensures c.id.ts <= n.store.self.ts && c.last <= now && (c.id == n.store.self ==> c.inc <= Own(n).inc)
    {
      assert Fair(n, now)(c);
    }
    MergeSelf(n.store, list, now);
    MergeKeeps(n.store, list, now);
  }

  ghost predicate RefutedBy(n: Node, n': Node, list: seq<Entry>)
    requires HasOwn(n)
  {
    !HasLeft(n.store) && n'.store.tSuspect != 0 && Refutable(list, n.store.self, Own(n).inc)
  }

  ghost function One(b: bool): nat {
    if b then 1 else 0
  }

  lemma ReceivedOwn(n: Node, m: Message, now: int)
    requires Sound(n) && n.started && ListAll(m.list, Fair(n, now))
    ensures var n' := Received(n, m, now);
      Kept(n, n', One(RefutedBy(n, n', m.list)), false, now)
      && (Own(n').state == Left || Own(n').last == now)
  {
    var c := Configured(n, m.cfg);
    assert Sound(c);
    if !HasLeft(c.store) {
      var f := Snapped(c, now);
      assert Own(f) == Own(c).(last := now) && Sound(f);
      assert forall e :: Fair(n, now)(e) ==> Fair(f, now)(e);
      HeardOwn(f, m.list, now);
    }
  }

  lemma WelcomedOwn(n: Node, cfg: Dto, reply: seq<Entry>, now: int)
    requires Sound(n) && !n.started && ListAll(reply, Fair(n, now))
    ensures var n' := Welcomed(n, cfg, reply, now);
      Kept(n, n', One(RefutedBy(n, n', reply)), false, now)
  {
    var f := Snapped(n, now);
    var c := Configured(f, cfg);
    assert Own(c) == Own(n).(last := now) && Sound(c);
    assert forall e :: Fair(n, now)(e) ==> Fair(c, now)(e);
    HeardOwn(c, reply, now);
  }

  lemma GreetedOwn(n: Node, ask: seq<Entry>, now: int)
    requires Sound(n) && n.started && (forall c | c in ask :: c.id.ep != n.store.self.ep)
    ensures Kept(n, Greeted(n, ask, now), 0, false, now)
  {
    MergeElsewhere(n.store, ask, now, n.store.self.ep);
    MergeKeeps(n.store, ask, now);
  }

  lemma SnappedOwn(n: Node, now: int)
    requires Sound(n)
    ensures Kept(n, Snapped(n, now), 0, false, now)
  {
  }

  lemma ScannedOwn(n: Node, now: int, tick: int)
    requires Sound(n) && ScanOnce(n.store, now, tick, n.timers).Scanned?
    ensures Kept(n, n.(store := ScanOnce(n.store, now, tick, n.timers).store), 0, false, now)
  {
  }

  lemma ItemOwn(n: Node, now: int)
    requires Sound(n) && n.work.Sweeping? && n.work.todo != []
    ensures Kept(n, ItemSwept(n, now), 0, false, now)
  {
    var e := n.work.todo[0];
    assert e in n.work.todo;
    assert forall c | c in n.work.todo[1..] :: c in n.work.todo;
  }

  lemma BegunOwn(n: Node, now: int, tick: int, list: seq<Entry>)
    requires Sound(n) && !HasLeft(n.store) && Listing(list, Snapped(n, now).store.table)
    ensures Kept(n, Snapped(n, now).(work := if list == [] then Idle else Sweeping(tick, n.timers, list)), 0, false, now)
  {
  }

  lemma DepartedOwn(n: Node, now: int)
    requires Sound(n) && n.started
    ensures Kept(n, Departed(n, now), 1, true, now)
  {
  }

  // ----------------------------- the own row over a step -----------------------------

  /** The list a step delivers to the node at `at`, if it delivers one that can be about that node. */
  function Delivered(step: Step, at: Endpoint): seq<Entry> {
    match step
    case Receive(a, m, _) => if a == at then m.list else []
    case Join(a, _, _, reply, answered) => if a == at && answered then reply else []
    case _ => []
  }

  /** The step makes the node at `at` refute: it listens, suspicion is on, and it is accused at exactly
      its current incarnation. */
  ghost predicate Refutes(s: Cluster, step: Step, s': Cluster, at: Endpoint) {
    && at in s.nodes && at in s'.nodes && HasOwn(s.nodes[at])
    && RefutedBy(s.nodes[at], s'.nodes[at], Delivered(step, at))
  }

  ghost predicate OwnKept(s: Cluster, step: Step, s': Cluster, at: Endpoint)
    requires at in s.nodes && at in s'.nodes
  {
    Kept(s.nodes[at], s'.nodes[at], One(Refutes(s, step, s', at)) + One(step == Leave(at)), step == Leave(at), s.clock)
  }

  lemma LawfulIsFair(s: Cluster, at: Endpoint, list: seq<Entry>)
    requires at in s.nodes && NodeOk(s, at) && ListAll(list, Lawful(s))
    ensures ListAll(list, Fair(s.nodes[at], s.clock))
  {
    forall c | c in list ensures Fair(s.nodes[at], s.clock)(c) {
      assert Lawful(s)(c);
    }
  }

  lemma ShownLawful(s: Cluster, at: Endpoint)
    requires Inv(s) && at in s.nodes
    ensures LawfulIn(s, Shown(s.nodes[at], s.clock)) && LawfulIn(s, Own(s.nodes[at]))
  {
    var n := s.nodes[at];
    assert NodeOk(s, at) && NodeAll(n, Lawful(s));
    assert Lawful(s)(n.store.table[at]);
  }

  lemma RestampLawful(s: Cluster)
    ensures RestampClosed(Lawful(s), s.clock)
  {
  }

  lemma ReplyLawful(s: Cluster, step: Step, s': Cluster)
    requires Inv(s) && step.Join? && Next(s, step, s')
    ensures ListAll(step.reply, Lawful(s))
  {
    var Join(at, via, ask, reply, answered) := step;
    assert NodeOk(s, at) && NodeOk(s, via);
    ShownLawful(s, at);
    ShownLawful(s, via);
    RestampLawful(s);
    GreetedClaims(s, at, via, ask, Lawful(s));
    ListingClaims(reply, Greeted(s.nodes[via], ask, s.clock).store.table, Lawful(s));
  }

  lemma JoinOwn(s: Cluster, step: Step, s': Cluster)
    requires step.Join? && Next(s, step, s') && NodeOk(s, step.at) && NodeOk(s, step.via)
    requires ListAll(step.reply, Lawful(s))
    ensures OwnKept(s, step, s', step.at) && OwnKept(s, step, s', step.via)
  {
    var Join(at, via, ask, reply, answered) := step;
    SnappedOwn(s.nodes[at], s.clock);
    assert Refresh(s.nodes[at].store, s.clock).table.Keys == {at};
    GreetedOwn(s.nodes[via], ask, s.clock);
    assert !Refutes(s, step, s', via);
    if answered {
      LawfulIsFair(s, at, reply);
      WelcomedOwn(s.nodes[at], ToDto(Greeted(s.nodes[via], ask, s.clock).cfg), reply, s.clock);
    } else {
      assert !Refutes(s, step, s', at);
    }
  }

  lemma ReceiveOwn(s: Cluster, step: Step, s': Cluster)
    requires step.Receive? && Next(s, step, s') && NodeOk(s, step.at) && ListAll(step.m.list, Lawful(s))
    ensures OwnKept(s, step, s', step.at)
  {
    var Receive(at, m, ack) := step;
    LawfulIsFair(s, at, m.list);
    ReceivedOwn(s.nodes[at], m, s.clock);
    if ack.Some? {
      SnappedOwn(Received(s.nodes[at], m, s.clock), s.clock);
    }
  }

  lemma ActorOwn(s: Cluster, step: Step, s': Cluster, at: Endpoint)
    requires Next(s, step, s') && at in s.nodes && at in s'.nodes && NodeOk(s, at) && at in Actors(step)
    requires !step.Receive? && !step.Join?
    ensures OwnKept(s, step, s', at)
  {
    var n := s.nodes[at];
    assert !Refutes(s, step, s', at);
    match step
    case Advance(_) =>
    case Crash(_) =>
    case Boot(id, cfg) =>
    case Scan(_, tick) => ScannedOwn(n, s.clock, tick);
    case ScanItem(_) => ItemOwn(n, s.clock);
    case Send(_, _) => SnappedOwn(n, s.clock);
    case BeginScan(_, tick, list) => BegunOwn(n, s.clock, tick, list);
    case Leave(_) => DepartedOwn(n, s.clock);
    case Admin(_, _) =>
  }

  lemma BystanderKept(s: Cluster, step: Step, s': Cluster, at: Endpoint)
    requires Next(s, step, s') && at in s.nodes && at !in Actors(step) && NodeOk(s, at)
    ensures at in s'.nodes && OwnKept(s, step, s', at)
  {
    BystanderOwn(s, step, s', at);
    assert Delivered(step, at) == [];
  }

  /** No step takes a running node's own row away, relabels it, accuses it or lowers it; each raises its
      incarnation by exactly one for a refutation and one for a leave request. */
  lemma StepOwn(s: Cluster, step: Step, s': Cluster, at: Endpoint)
    requires Inv(s) && Next(s, step, s') && at in s.nodes && at in s'.nodes
    ensures OwnKept(s, step, s', at)
  {
    hide Next, OwnKept, NodeOk;
    StepSites(s, step, s');
    if at !in Actors(step) {
      BystanderKept(s, step, s', at);
    } else if step.Receive? {
      ReceiveOwn(s, step, s');
    } else if step.Join? {
      ReplyLawful(s, step, s');
      JoinOwn(s, step, s');
    } else {
      ActorOwn(s, step, s', at);
    }
  }

  // ------------------------------- the invariant -------------------------------

  lemma InvNode(s: Cluster, at: Endpoint)
    requires Inv(s) && at in s.nodes
    ensures NodeOk(s, at)
  {
  }

  lemma BootOk(s: Cluster, step: Step, s': Cluster, at: Endpoint)
    requires Next(s, step, s') && at in s'.nodes && at !in s.nodes
    ensures NodeOk(s', at) && Own(s'.nodes[at]).last == s'.clock
  {
  }

  lemma KeptOk(s: Cluster, step: Step, s': Cluster, at: Endpoint)
    requires Next(s, step, s') && at in s.nodes && at in s'.nodes && NodeOk(s, at) && OwnKept(s, step, s', at)
    ensures NodeOk(s', at)
  {
    BootsStep(s, step, s', at);
  }

  lemma NodesStep(s: Cluster, step: Step, s': Cluster)
    requires Inv(s) && Next(s, step, s')
    ensures forall at | at in s'.nodes :: NodeOk(s', at)
  {
    hide Next, OwnKept, NodeOk, EveryClaim;
    forall at | at in s'.nodes ensures NodeOk(s', at) {
      if at in s.nodes {
        StepOwn(s, step, s', at);
        KeptOk(s, step, s', at);
      } else {
        BootOk(s, step, s', at);
      }
    }
  }

  /** What was lawful stays lawful: own incarnations only rise, and a new boot has no claims yet. */
  lemma LawfulMono(s: Cluster, step: Step, s': Cluster, c: Entry)
    requires Inv(s) && Next(s, step, s') && LawfulIn(s, c)
    ensures LawfulIn(s', c)
  {
    hide Next, EveryClaim, Sound, Refutes;
    BootsStep(s, step, s', c.id.ep);
    if Runs(s', c.id) {
      StepSites(s, step, s');
      if c.id.ep in s.nodes {
        StepOwn(s, step, s', c.id.ep);
      }
    }
  }

  lemma LawfulMonoAll(s: Cluster, step: Step, s': Cluster)
    requires Inv(s) && Next(s, step, s')
    ensures EveryClaim(s, Lawful(s'))
  {
    hide Next, EveryClaim, LawfulIn, NodeOk;
    forall c ensures Lawful(s)(c) ==> Lawful(s')(c) {
      if LawfulIn(s, c) {
        LawfulMono(s, step, s', c);
      }
    }
    EveryClaimWeaken(s, Lawful(s), Lawful(s'));
  }

  ghost function Both(p: Entry -> bool, q: Entry -> bool): Entry -> bool {
    (c: Entry) => p(c) && q(c)
  }

  lemma BothClaims(s: Cluster, p: Entry -> bool, q: Entry -> bool)
    ensures EveryClaim(s, Both(p, q)) <==> EveryClaim(s, p) && EveryClaim(s, q)
  {
    if EveryClaim(s, Both(p, q)) {
      forall at | at in s.nodes ensures NodeAll(s.nodes[at], p) && NodeAll(s.nodes[at], q) {
        assert NodeAll(s.nodes[at], Both(p, q));
        assert forall c :: Both(p, q)(c) ==> p(c) && q(c);
      }
      forall m | m in s.soup ensures ListAll(m.list, p) && ListAll(m.list, q) {
        assert ListAll(m.list, Both(p, q));
        assert forall c :: Both(p, q)(c) ==> p(c) && q(c);
      }
    }
    if EveryClaim(s, p) && EveryClaim(s, q) {
      assert forall c :: Both(p, q)(c) <== p(c) && q(c);
      forall at | at in s.nodes ensures NodeAll(s.nodes[at], Both(p, q)) {
        assert NodeAll(s.nodes[at], p) && NodeAll(s.nodes[at], q);
      }
      forall m | m in s.soup ensures ListAll(m.list, Both(p, q)) {
        assert ListAll(m.list, p) && ListAll(m.list, q);
      }
    }
  }

  /** The own row of a running node, and nothing about its other rows. */
  ghost predicate OwnRow(s: Cluster, at: Endpoint)
    requires at in s.nodes
  {
    var n := s.nodes[at];
    && n.store.self.ep == at && at in s.boots && s.boots[at] == n.store.self.ts
    && HasOwn(n) && Own(n).id == n.store.self && (Own(n).state == Alive || Own(n).state == Left)
    && Own(n).last <= s.clock
  }

  /** What the properties need to know about a node that takes part in a step: it has its own row before and
      after, under the same boot, its incarnation has not fallen, and if it had left it still has. */
  ghost predicate ReadyAt(s: Cluster, s': Cluster, at: Endpoint) {
    && (at in s.nodes ==> OwnRow(s, at) && at in s'.boots && s'.boots[at] == s.boots[at])
    && (at in s'.nodes ==> OwnRow(s', at))
    && (at in s.nodes && at in s'.nodes ==>
          var (n, n') := (s.nodes[at], s'.nodes[at]);
          n'.store.self == n.store.self && Own(n').inc >= Own(n).inc && (Own(n).state == Left ==> Own(n').state == Left))
  }

  ghost predicate Ready(s: Cluster, step: Step, s': Cluster) {
    && Next(s, step, s') && s'.clock >= s.clock
    && forall at | at in Actors(step) :: ReadyAt(s, s', at)
  }

  lemma InvOwnRow(s: Cluster, at: Endpoint)
    requires Inv(s) && at in s.nodes
    ensures NodeOk(s, at) && OwnRow(s, at)
  {
    ShownLawful(s, at);
  }

  lemma StepReadyAt(s: Cluster, step: Step, s': Cluster, at: Endpoint)
    requires Inv(s) && Next(s, step, s')
    ensures ReadyAt(s, s', at) && (at in s.nodes ==> RootedAt(s, at))
  {
    hide Next, EveryClaim;
    BootsStep(s, step, s', at);
    if at in s.nodes {
      InvOwnRow(s, at);
      if at in s'.nodes {
        StepOwn(s, step, s', at);
      }
    } else if at in s'.nodes {
      BootOk(s, step, s', at);
    }
  }

  lemma StepReady(s: Cluster, step: Step, s': Cluster)
    requires Inv(s) && Next(s, step, s')
    ensures Ready(s, step, s') && ActorsOk(s, step)
  {
    hide Next, EveryClaim, NodeOk, ReadyAt;
    forall at | at in Actors(step) ensures ReadyAt(s, s', at) && (at in s.nodes ==> RootedAt(s, at)) {
      StepReadyAt(s, step, s', at);
    }
    BootsStep(s, step, s', Endpoint(NoAddr, 0));
  }

  /** The own rows that a step shows or leaves are lawful afterwards. */
  lemma OwnRowsLawful(s: Cluster, s': Cluster, at: Endpoint)
    requires ReadyAt(s, s', at) && s.clock <= s'.clock
    ensures at in s.nodes ==> HasOwn(s.nodes[at]) && LawfulIn(s', Shown(s.nodes[at], s.clock))
    ensures at in s'.nodes ==> HasOwn(s'.nodes[at]) && LawfulIn(s', Own(s'.nodes[at]))
  {
  }

  lemma LawfulMarks(s: Cluster, step: Step, s': Cluster)
    requires !step.ScanItem?
    ensures MarksCarry(Lawful(s'), s, step)
  {
  }

  lemma LawfulOwnRows(s: Cluster, step: Step, s': Cluster)
    requires Ready(s, step, s')
    ensures OwnRowsCarry(Lawful(s'), s, step, s')
  {
    hide Next, ReadyAt, LawfulIn;
    forall at | at in Actors(step)
      ensures at in s.nodes ==> HasOwn(s.nodes[at]) && LawfulIn(s', Shown(s.nodes[at], s.clock))
      ensures at in s'.nodes ==> HasOwn(s'.nodes[at]) && LawfulIn(s', Own(s'.nodes[at]))
    {
      OwnRowsLawful(s, s', at);
    }
  }

  lemma RestampLawfulNext(s: Cluster, step: Step, s': Cluster)
    requires Next(s, step, s')
    ensures RestampClosed(Lawful(s'), s.clock)
  {
    assert s'.clock >= s.clock;
  }

  /** Every step but an item of a split scan keeps the claims lawful. */
  lemma ClaimsStep(s: Cluster, step: Step, s': Cluster)
    requires Inv(s) && Next(s, step, s') && !step.ScanItem?
    ensures EveryClaim(s', Lawful(s'))
  {
    hide Next, NodeOk, EveryClaim, ReadyAt;
    LawfulMonoAll(s, step, s');
    RestampLawfulNext(s, step, s');
    LawfulMarks(s, step, s');
    StepReady(s, step, s');
    LawfulOwnRows(s, step, s');
    StepClaims(s, step, s', Lawful(s'));
  }
}
