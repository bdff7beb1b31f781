/** Leaving is final while suspicion is enabled. */
module Departure {
  import opened Identity
  import opened Membership
  import MergeLaws
  import opened Scanner
  import opened Settings
  import opened Cluster
  import opened Claims
  import opened Safety
  import opened Rooting
  import opened Overwriting
  import opened SafetyRuns
  import opened Agreement

  /** Every claim about the boot `id` at incarnation `k` or above says it has left. */
  ghost function LeaveStands(id: NodeId, k: nat): Entry -> bool {
    (c: Entry) => c.id == id && c.inc >= k ==> c.state == Left
  }

  /** The leave of `id` at `k` stands everywhere, and `id` itself, if still running, has left. */
  ghost predicate LeftForGood(s: Cluster, id: NodeId, k: nat) {
    && EveryClaim(s, LeaveStands(id, k))
    && id.ep in s.boots && s.boots[id.ep] >= id.ts
    && (Runs(s, id) ==> HasLeft(s.nodes[id.ep].store))
  }

  /** Without anyone to contradict it, a leave survives every mark of a scan with suspicion on. */
  lemma LeaveSurvivesScan(s: Cluster, step: Step, id: NodeId, k: nat)
    requires !step.ScanItem? && (step.Scan? ==> step.at in s.nodes && s.nodes[step.at].timers.suspect != 0)
    ensures MarksCarry(LeaveStands(id, k), s, step) && RestampClosed(LeaveStands(id, k), s.clock)
  {
  }

  lemma LeaveOwnRows(s: Cluster, step: Step, s': Cluster, id: NodeId, k: nat, at: Endpoint)
    requires Next(s, step, s') && ReadyAt(s, s', at) && LeftForGood(s, id, k)
    ensures at in s.nodes ==> HasOwn(s.nodes[at]) && LeaveStands(id, k)(Shown(s.nodes[at], s.clock))
    ensures at in s'.nodes ==> HasOwn(s'.nodes[at]) && LeaveStands(id, k)(Own(s'.nodes[at]))
    ensures Runs(s', id) && at == id.ep ==> HasLeft(s'.nodes[at].store)
  {
    if at in s'.nodes && at !in s.nodes {
      assert step.Boot? && s'.nodes[at].store.self == step.id;
    }
  }

  lemma LeaveOwnRowsCarry(s: Cluster, step: Step, s': Cluster, id: NodeId, k: nat)
    requires Ready(s, step, s') && LeftForGood(s, id, k)
    ensures OwnRowsCarry(LeaveStands(id, k), s, step, s')
  {
    hide Next;
    forall at | at in Actors(step)
      ensures at in s.nodes ==> HasOwn(s.nodes[at]) && LeaveStands(id, k)(Shown(s.nodes[at], s.clock))
      ensures at in s'.nodes ==> HasOwn(s'.nodes[at]) && LeaveStands(id, k)(Own(s'.nodes[at]))
    {
      LeaveOwnRows(s, step, s', id, k, at);
    }
  }

  lemma LeaverStaysLeft(s: Cluster, step: Step, s': Cluster, id: NodeId, k: nat)
    requires Ready(s, step, s') && LeftForGood(s, id, k)
    ensures id.ep in s'.boots && s'.boots[id.ep] >= id.ts
    ensures Runs(s', id) ==> HasLeft(s'.nodes[id.ep].store)
  {
    hide Next, EveryClaim;
    BootsStep(s, step, s', id.ep);
    StepSites(s, step, s');
    if id.ep in Actors(step) {
      LeaveOwnRows(s, step, s', id, k, id.ep);
    } else if id.ep in s.nodes {
      BystanderOwn(s, step, s', id.ep);
    }
  }

  /** An item of a split scan marks a row of the boot `id` at incarnation `k` or above. */
  predicate Reinstates(s: Cluster, step: Step, id: NodeId, k: nat) {
    Marks(s, step) && Target(s, step).id == id && Item(s, step).inc >= k
  }

  /** With suspicion on, such an item has found another boot in the table than its snapshot shows. */
  lemma ReinstatesCrossesBoots(s: Cluster, step: Step, id: NodeId, k: nat)
    requires EveryClaim(s, LeaveStands(id, k)) && Reinstates(s, step, id, k)
    requires s.nodes[step.at].work.timers.suspect != 0
    ensures CrossesBoots(s, step)
  {
    hide EveryClaim;
    NodeClaims(s, step.at, LeaveStands(id, k));
    assert Item(s, step) in Todo(s.nodes[step.at].work);
    assert LeaveStands(id, k)(Item(s, step));
  }

  /** One item, exactly. */
  lemma DepartedItem(s: Cluster, step: Step, s': Cluster, id: NodeId, k: nat)
    requires step.ScanItem? && Next(s, step, s') && EveryClaim(s, LeaveStands(id, k))
    ensures EveryClaim(s', LeaveStands(id, k)) <==> !Reinstates(s, step, id, k)
  {
    hide Next, Judge, EveryClaim;
    ItemSites(s, step, s');
    var (n, e, p) := (s.nodes[step.at], Item(s, step), LeaveStands(id, k));
    var z := ItemSwept(n, s.clock);
    NodeClaims(s, step.at, p);
    if Marks(s, step) {
      MarkIsBacked(e, n.store.self, n.work.tick, n.work.timers);
      assert z.store.table[e.id.ep] == Marked(Target(s, step), e, ItemVerdict(s, step));
    }
    if Reinstates(s, step, id, k) {
      if EveryClaim(s', p) {
        NodeClaims(s', step.at, p);
        assert false;
      }
    } else {
      assert NodeAll(z, p);
      PutClaims(s, step.at, z, p);
    }
  }

  lemma DepartedStep(s: Cluster, step: Step, s': Cluster, id: NodeId, k: nat)
    requires Ready(s, step, s') && ActorsOk(s, step) && LeftForGood(s, id, k)
    requires forall at | at in s.nodes :: SuspectsAt(s, at)
    ensures LeftForGood(s', id, k) <==> !Reinstates(s, step, id, k)
  {
    hide Next, EveryClaim, ReadyAt, Rooted;
    StepSites(s, step, s');
    LeaverStaysLeft(s, step, s', id, k);
    if step.ScanItem? {
      DepartedItem(s, step, s', id, k);
    } else {
      LeaveOwnRowsCarry(s, step, s', id, k);
      LeaveSurvivesScan(s, step, id, k);
      StepClaims(s, step, s', LeaveStands(id, k));
    }
  }

  /** The incarnation at which a leave requested now takes place. */
  ghost function LeaveInc(s: Cluster, id: NodeId): nat
    requires Runs(s, id)
  {
    OwnInc(s, id) + 1
  }

  /** The leave request itself: no claim reaches the new incarnation yet but the leaver's own. */
  lemma LeaveBegins(s: Cluster, step: Step, s': Cluster, id: NodeId)
    requires Next(s, step, s') && step == Leave(id.ep) && Runs(s, id)
    requires NodeOk(s, id.ep) && EveryClaim(s, Lawful(s))
    ensures Runs(s', id) && OwnInc(s', id) == LeaveInc(s, id) && LeftForGood(s', id, LeaveInc(s, id))
  {
    DepartedOwn(s.nodes[id.ep], s.clock);
    var k := OwnInc(s', id);
    EveryClaimWeaken(s, Lawful(s), LeaveStands(id, k));
    OwnStepClaims(s, step, s', LeaveStands(id, k));
  }

  lemma RunDepartedStep(run: Run, j: nat, id: NodeId, k: nat)
    requires Unspoilt(run, j) && SuspicionOn(run) && j < |run.steps| && LeftForGood(run.states[j], id, k)
    ensures LeftForGood(run.states[j + 1], id, k) <==> !Reinstates(run.states[j], run.steps[j], id, k)
  {
    RunReady(run, j);
    SuspicionStaysOn(run, j);
    DepartedStep(run.states[j], run.steps[j], run.states[j + 1], id, k);
  }

  lemma RunLeaveBegins(run: Run, i: nat, id: NodeId)
    requires Unspoilt(run, i) && i < |run.steps| && run.steps[i] == Leave(id.ep) && Runs(run.states[i], id)
    ensures LeftForGood(run.states[i + 1], id, LeaveInc(run.states[i], id))
  {
    assert Next(run.states[i], run.steps[i], run.states[i + 1]);
    RunLawful(run, i);
    RunNode(run, i, id.ep);
    LeaveBegins(run.states[i], run.steps[i], run.states[i + 1], id);
  }

  /** No item marks a row of `id` at `k` or above between the states `i` and `j`. */
  ghost predicate NeverReinstated(run: Run, i: nat, j: nat, id: NodeId, k: nat)
    requires ValidRun(run) && j < |run.states|
  {
    forall m | i <= m < j :: !Reinstates(run.states[m], run.steps[m], id, k)
  }

  /** A leave stands throughout a run exactly as long as no item of a split scan marks a row of the leaver at the
      leave's incarnation or above. */
  lemma {:induction false} LeaveOverRun(run: Run, i: nat, j: nat, id: NodeId, k: nat)
    requires Unspoilt(run, j) && SuspicionOn(run) && i <= j && LeftForGood(run.states[i], id, k)
    ensures (forall m | i <= m <= j :: LeftForGood(run.states[m], id, k)) <==> NeverReinstated(run, i, j, id, k)
    decreases j - i
  {
    hide Next, LeftForGood, Reinstates, Overwrites;
    if i == j {
    } else {
      LeaveOverRun(run, i, j - 1, id, k);
      if LeftForGood(run.states[j - 1], id, k) {
        RunDepartedStep(run, j - 1, id, k);
      }
    }
  }

  /** A run in which no item crosses boots never does: with one boot per endpoint, with atomic scans, or with
      nodes that compare boots before they act on an item. */
  lemma {:induction false} SameBootsKeepLeave(run: Run, i: nat, j: nat, id: NodeId, k: nat)
    requires SameBoots(run, j) && Unspoilt(run, j) && SuspicionOn(run) && i <= j && LeftForGood(run.states[i], id, k)
    ensures NeverReinstated(run, i, j, id, k)
    decreases j - i
  {
    hide Next, Reinstates, Overwrites, CrossesBoots;
    if i == j {
    } else {
      SameBootsKeepLeave(run, i, j - 1, id, k);
      LeaveOverRun(run, i, j - 1, id, k);
      SuspicionStaysOn(run, j - 1);
      if Reinstates(run.states[j - 1], run.steps[j - 1], id, k) {
        ReinstatedAt(run.states[j - 1], run.steps[j - 1], id, k);
        ReinstatesCrossesBoots(run.states[j - 1], run.steps[j - 1], id, k);
      }
    }
  }

  lemma ReinstatedAt(s: Cluster, step: Step, id: NodeId, k: nat)
    requires Reinstates(s, step, id, k)
    ensures HasItem(s, step)
  {
  }

  /** Leave is final: once a boot has left at incarnation `k`, every claim about it at `k` or above, in any
      table, message or scan in progress of any later state, says so, whatever crashes, reboots and split
      scans there are meanwhile, unless an item has marked a row of it at `k` or above. */
  lemma LeaveIsFinal(run: Run, i: nat, j: nat, id: NodeId, c: Entry)
    requires Unspoilt(run, j) && SuspicionOn(run) && i < j
    requires run.steps[i] == Leave(id.ep) && Runs(run.states[i], id)
    requires SameBoots(run, j) || NeverReinstated(run, i + 1, j, id, LeaveInc(run.states[i], id))
    requires IsClaim(run.states[j], c) && c.id == id
    ensures c.inc >= LeaveInc(run.states[i], id) ==> c.state == Left
  {
    hide Next, LeftForGood, Overwrites, CrossesBoots, Reinstates;
    var k := LeaveInc(run.states[i], id);
    RunLeaveBegins(run, i, id);
    LeaveKept(run, i, j, id);
    StandsAt(run.states[j], id, k);
    ClaimHolds(run.states[j], LeaveStands(id, k), c);
  }

  lemma StandsAt(s: Cluster, id: NodeId, k: nat)
    requires LeftForGood(s, id, k)
    ensures EveryClaim(s, LeaveStands(id, k))
  {
  }

  lemma LeaveKept(run: Run, i: nat, j: nat, id: NodeId)
    requires Unspoilt(run, j) && SuspicionOn(run) && i < j
    requires run.steps[i] == Leave(id.ep) && Runs(run.states[i], id)
    requires SameBoots(run, j) || NeverReinstated(run, i + 1, j, id, LeaveInc(run.states[i], id))
    ensures forall m | i < m <= j :: LeftForGood(run.states[m], id, LeaveInc(run.states[i], id))
  {
    hide Next, LeftForGood, Overwrites, CrossesBoots, Reinstates;
    var k := LeaveInc(run.states[i], id);
    RunLeaveBegins(run, i, id);
    if SameBoots(run, j) {
      SameBootsKeepLeave(run, i + 1, j, id, k);
    }
    LeaveOverRun(run, i + 1, j, id, k);
  }

  // --------------------- a table that has accepted a leave keeps it ---------------------

  /** `z` is from a newer boot than `x`, or from the same boot at no lower incarnation. */
  predicate Succeeds(x: Entry, z: Entry) {
    z.id.ts > x.id.ts || (z.id.ts == x.id.ts && z.inc >= x.inc)
  }

  lemma MergeSucceeds(r: Replica, list: seq<Entry>, now: int, k: Endpoint)
    requires r.tSuspect != 0 && k in r.table
    ensures k in Merge(r, list, now).table && Succeeds(r.table[k], Merge(r, list, now).table[k])
  {
    MergeLaws.MergeRaisesRank(r, list, now, k);
  }

  lemma WelcomedSucceeds(n: Node, d: Dto, reply: seq<Entry>, now: int, k: Endpoint)
    requires k in n.store.table && Welcomed(n, d, reply, now).store.tSuspect != 0
    ensures var t := Welcomed(n, d, reply, now).store.table; k in t && Succeeds(n.store.table[k], t[k])
  {
    var c := Configured(Snapped(n, now), d);
    MergeKeeps(c.store, reply, now);
    MergeSucceeds(c.store, reply, now, k);
  }

  lemma GreetedSucceeds(n: Node, ask: seq<Entry>, now: int, k: Endpoint)
    requires k in n.store.table && n.store.tSuspect != 0
    ensures var t := Greeted(n, ask, now).store.table; k in t && Succeeds(n.store.table[k], t[k])
  {
    MergeSucceeds(n.store, ask, now, k);
  }

  lemma ReceivedSucceeds(n: Node, m: Message, now: int, k: Endpoint)
    requires k in n.store.table && Received(n, m, now).store.tSuspect != 0
    ensures var t := Received(n, m, now).store.table; k in t && Succeeds(n.store.table[k], t[k])
  {
    var c := Configured(n, m.cfg);
    if !HasLeft(c.store) {
      var f := Refresh(c.store, now);
      MergeKeeps(f, m.list, now);
      MergeSucceeds(f, m.list, now, k);
    }
  }

  lemma JoinSucceeds(s: Cluster, step: Step, s': Cluster, at: Endpoint, k: Endpoint)
    requires step.Join? && Next(s, step, s') && at in Actors(step)
    requires at in s'.nodes && s.nodes[at].store.tSuspect != 0 && s'.nodes[at].store.tSuspect != 0
    requires k in s.nodes[at].store.table
    ensures k in s'.nodes[at].store.table && Succeeds(s.nodes[at].store.table[k], s'.nodes[at].store.table[k])
  {
    var Join(a, via, ask, reply, answered) := step;
    var n := s.nodes[at];
    if a != at {
      GreetedSucceeds(n, ask, s.clock, k);
    } else if answered {
      WelcomedSucceeds(n, ToDto(Greeted(s.nodes[via], ask, s.clock).cfg), reply, s.clock, k);
    }
  }

  lemma ReceiveSucceeds(s: Cluster, step: Step, s': Cluster, k: Endpoint)
    requires step.Receive? && Next(s, step, s')
    requires k in s.nodes[step.at].store.table && s'.nodes[step.at].store.tSuspect != 0
    ensures var t := s'.nodes[step.at].store.table; k in t && Succeeds(s.nodes[step.at].store.table[k], t[k])
  {
    ReceivedSucceeds(s.nodes[step.at], step.m, s.clock, k);
  }

  lemma OtherSucceeds(s: Cluster, step: Step, s': Cluster, at: Endpoint, k: Endpoint)
    requires Next(s, step, s') && !step.ScanItem? && !step.Join? && !step.Receive?
    requires at in s.nodes && at in s'.nodes && at in Actors(step)
    requires k in s.nodes[at].store.table && k in s'.nodes[at].store.table
    ensures Succeeds(s.nodes[at].store.table[k], s'.nodes[at].store.table[k])
  {
    hide ApplyRuntime, Cached, Listing;
  }

  /** An item of a split scan marks the row for `k` at `at`, which has moved on to a higher incarnation since
      the snapshot. */
  predicate Regresses(s: Cluster, step: Step, at: Endpoint, k: Endpoint) {
    && Marks(s, step) && step.at == at && Item(s, step).id.ep == k
    && Item(s, step).inc < Target(s, step).inc
  }

  /** With suspicion on, the one step that takes a row back to an older boot or a lower incarnation is an item
      of a split scan whose snapshot row has fallen behind. */
  lemma StepSucceeds(s: Cluster, step: Step, s': Cluster, at: Endpoint, k: Endpoint)
    requires Next(s, step, s') && at in s.nodes && at in s'.nodes
    requires s.nodes[at].store.tSuspect != 0 && s'.nodes[at].store.tSuspect != 0
    requires k in s.nodes[at].store.table && k in s'.nodes[at].store.table
    ensures Succeeds(s.nodes[at].store.table[k], s'.nodes[at].store.table[k]) <==> !Regresses(s, step, at, k)
  {
    hide Next;
    if at !in Actors(step) {
      BystanderOwn(s, step, s', at);
    } else if step.Receive? {
      ReceiveSucceeds(s, step, s', k);
    } else if step.Join? {
      StepSites(s, step, s');
      JoinSucceeds(s, step, s', at, k);
    } else if step.ScanItem? {
      ItemEffect(s, step, s', k);
    } else {
      OtherSucceeds(s, step, s', at, k);
    }
  }

  /** The table at `at` has a row for the endpoint of `id` that is not from a newer boot. */
  ghost predicate StillShows(s: Cluster, at: Endpoint, id: NodeId) {
    && at in s.nodes && id.ep in s.nodes[at].store.table
    && s.nodes[at].store.table[id.ep].id.ts <= id.ts
  }

  /** The row for the endpoint of `id` at `at` says that `id` has left, at incarnation `k` or above. */
  ghost predicate ShowsLeave(s: Cluster, at: Endpoint, id: NodeId, k: nat) {
    && at in s.nodes && id.ep in s.nodes[at].store.table
    && var z := s.nodes[at].store.table[id.ep]; z.id == id && z.inc >= k && z.state == Left
  }

  lemma TableClaim(s: Cluster, at: Endpoint, k: Endpoint, p: Entry -> bool)
    requires EveryClaim(s, p) && at in s.nodes && k in s.nodes[at].store.table
    ensures p(s.nodes[at].store.table[k])
  {
    assert NodeAll(s.nodes[at], p);
  }

  lemma ShowsLeaveStep(s: Cluster, step: Step, s': Cluster, at: Endpoint, id: NodeId, k: nat)
    requires Next(s, step, s') && ShowsLeave(s, at, id, k) && StillShows(s', at, id)
    requires s.nodes[at].store.tSuspect != 0 && s'.nodes[at].store.tSuspect != 0
    requires RootedAt(s', at) && EveryClaim(s', LeaveStands(id, k))
    ensures ShowsLeave(s', at, id, k) <==> !Regresses(s, step, at, id.ep)
  {
    hide Next, Judge, EveryClaim;
    StepSucceeds(s, step, s', at, id.ep);
    TableClaim(s', at, id.ep, LeaveStands(id, k));
    if Regresses(s, step, at, id.ep) {
      var n := s.nodes[at];
      ItemEffect(s, step, s', id.ep);
      MarkIsBacked(Item(s, step), n.store.self, n.work.tick, n.work.timers);
    }
  }

  lemma RunShowsLeaveStep(run: Run, j: nat, id: NodeId, at: Endpoint, k: nat)
    requires ValidRun(run) && SuspicionOn(run) && j < |run.steps|
    requires ShowsLeave(run.states[j], at, id, k) && StillShows(run.states[j + 1], at, id)
    requires LeftForGood(run.states[j + 1], id, k)
    ensures ShowsLeave(run.states[j + 1], at, id, k) <==> !Regresses(run.states[j], run.steps[j], at, id.ep)
  {
    hide Next, EveryClaim;
    assert Next(run.states[j], run.steps[j], run.states[j + 1]);
    SuspicionStaysOn(run, j);
    SuspicionStaysOn(run, j + 1);
    RunRooted(run, j + 1, at);
    ShowsLeaveStep(run.states[j], run.steps[j], run.states[j + 1], at, id, k);
  }

  /** The table at `at` has such a row throughout. */
  ghost predicate StillShowsFrom(run: Run, j: nat, l: nat, at: Endpoint, id: NodeId)
    requires j <= l < |run.states|
  {
    forall m | j <= m <= l :: StillShows(run.states[m], at, id)
  }

  lemma {:induction false} RunShowsLeave(run: Run, j: nat, l: nat, id: NodeId, at: Endpoint, k: nat)
    requires ValidRun(run) && SuspicionOn(run) && j <= l < |run.states|
    requires forall m | j <= m <= l :: LeftForGood(run.states[m], id, k)
    requires StillShowsFrom(run, j, l, at, id) && ShowsLeave(run.states[j], at, id, k)
    ensures (forall m | j <= m <= l :: ShowsLeave(run.states[m], at, id, k))
      <==> (forall m | j <= m < l :: !Regresses(run.states[m], run.steps[m], at, id.ep))
    decreases l - j
  {
    hide Next, LeftForGood, ShowsLeave, Regresses;
    if j == l {
    } else {
      RunShowsLeave(run, j, l - 1, id, at, k);
      if ShowsLeave(run.states[l - 1], at, id, k) {
        assert StillShows(run.states[l], at, id);
        RunShowsLeaveStep(run, l - 1, id, at, k);
      }
    }
  }

  /** A table that has accepted a leave keeps it, whatever stale messages arrive, until the row is removed or
      a newer boot replaces it; if scans are split, exactly as long as none marks the row on a snapshot
      taken before the leave was accepted. */
  lemma AcceptedLeaveStays(run: Run, i: nat, j: nat, l: nat, id: NodeId, at: Endpoint)
    requires Unspoilt(run, l) && SuspicionOn(run) && i < j <= l
    requires run.steps[i] == Leave(id.ep) && Runs(run.states[i], id)
    requires SameBoots(run, l) || NeverReinstated(run, i + 1, l, id, LeaveInc(run.states[i], id))
    requires StillShowsFrom(run, j, l, at, id)
    requires ShowsLeave(run.states[j], at, id, LeaveInc(run.states[i], id))
    ensures (forall m | j <= m <= l :: ShowsLeave(run.states[m], at, id, LeaveInc(run.states[i], id)))
      <==> (forall m | j <= m < l :: !Regresses(run.states[m], run.steps[m], at, id.ep))
    ensures AtomicScans(run) ==> ShowsLeave(run.states[l], at, id, LeaveInc(run.states[i], id))
  {
    hide Next, LeftForGood, ShowsLeave, Marks, Overwrites, CrossesBoots, Reinstates;
    LeaveKept(run, i, l, id);
    RunShowsLeave(run, j, l, id, at, LeaveInc(run.states[i], id));
    if AtomicScans(run) {
      forall m | j <= m < l ensures !Regresses(run.states[m], run.steps[m], at, id.ep) {
        AtomicNeverRegresses(run, m, at, id.ep);
      }
    }
  }

  lemma AtomicNeverRegresses(run: Run, m: nat, at: Endpoint, k: Endpoint)
    requires ValidRun(run) && AtomicScans(run) && m < |run.steps|
    ensures !Regresses(run.states[m], run.steps[m], at, k)
  {
    AtomicStep(run, m);
  }
}
