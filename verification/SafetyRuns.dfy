/** The safety results over whole runs. A run may reboot endpoints and split its scans into separate steps with
    anything in between; the results hold for as long as no item of a split scan overwrites a newer boot's row. */
module SafetyRuns {
  import opened Identity
  import opened Membership
  import opened Cluster
  import opened Claims
  import opened Safety
  import opened Rooting
  import opened Overwriting

  /** `c` stands somewhere: in a table, in a message, or in a scan in progress. */
  ghost predicate IsClaim(s: Cluster, c: Entry) {
    || (exists at, k :: at in s.nodes && k in s.nodes[at].store.table && s.nodes[at].store.table[k] == c)
    || (exists at :: at in s.nodes && c in Todo(s.nodes[at].work))
    || (exists m :: m in s.soup && c in m.list)
  }

  lemma ClaimHolds(s: Cluster, p: Entry -> bool, c: Entry)
    requires EveryClaim(s, p) && IsClaim(s, c)
    ensures p(c)
  {
    if at, k :| at in s.nodes && k in s.nodes[at].store.table && s.nodes[at].store.table[k] == c {
      assert NodeAll(s.nodes[at], p);
    } else if at :| at in s.nodes && c in Todo(s.nodes[at].work) {
      assert NodeAll(s.nodes[at], p);
    } else {
      var m :| m in s.soup && c in m.list;
      assert ListAll(m.list, p);
    }
  }

  // ------------------------- runs that keep the invariant -------------------------

  /** No item of a split scan has overwritten the row of a newer boot before state `i`. */
  ghost predicate Unspoilt(run: Run, i: nat) {
    && ValidRun(run) && i < |run.states|
    && forall m | 0 <= m < i :: !Overwrites(run.states[m], run.steps[m])
  }

  /** Every item that has marked a row before state `i` found the boot of its snapshot in the table. */
  ghost predicate SameBoots(run: Run, i: nat) {
    && ValidRun(run) && i < |run.states|
    && forall m | 0 <= m < i :: !CrossesBoots(run.states[m], run.steps[m])
  }

  ghost predicate Covered(run: Run) {
    ValidRun(run) && (OneBoot(run) || AtomicScans(run))
  }

  ghost predicate AllIdle(s: Cluster) {
    forall at | at in s.nodes :: s.nodes[at].work.Idle?
  }

  lemma FirstBootOwnRows(s: Cluster, step: Step, s': Cluster)
    requires Ready(s, step, s')
    ensures OwnRowsCarry(FirstBoot(s'), s, step, s')
  {
    hide Next;
    forall at | at in Actors(step)
      ensures at in s.nodes ==> HasOwn(s.nodes[at]) && FirstBoot(s')(Shown(s.nodes[at], s.clock))
      ensures at in s'.nodes ==> HasOwn(s'.nodes[at]) && FirstBoot(s')(Own(s'.nodes[at]))
    {
      assert ReadyAt(s, s', at);
    }
  }

  lemma FirstBootMarks(s: Cluster, step: Step, s': Cluster)
    ensures MarksCarry(FirstBoot(s'), s, step) && RestampClosed(FirstBoot(s'), s.clock)
  {
  }

  lemma FirstBootStep(s: Cluster, step: Step, s': Cluster)
    requires Ready(s, step, s') && ActorsOk(s, step) && EveryClaim(s, FirstBoot(s))
    requires step.Boot? ==> step.id.ep !in s.boots
    ensures EveryClaim(s', FirstBoot(s'))
  {
    hide Next, EveryClaim, NodeOk, ReadyAt;
    FirstBootMono(s, step, s');
    FirstBootOwnRows(s, step, s');
    FirstBootMarks(s, step, s');
    StepClaims(s, step, s', FirstBoot(s'));
  }

  lemma FirstBootMono(s: Cluster, step: Step, s': Cluster)
    requires Next(s, step, s') && EveryClaim(s, FirstBoot(s)) && (step.Boot? ==> step.id.ep !in s.boots)
    ensures EveryClaim(s, FirstBoot(s'))
  {
    assert forall k | k in s.boots :: k in s'.boots && s'.boots[k] == s.boots[k];
    assert forall c :: FirstBoot(s)(c) ==> FirstBoot(s')(c);
    forall at | at in s.nodes ensures NodeAll(s.nodes[at], FirstBoot(s')) {
      assert NodeAll(s.nodes[at], FirstBoot(s));
    }
    forall m | m in s.soup ensures ListAll(m.list, FirstBoot(s')) {
      assert ListAll(m.list, FirstBoot(s));
    }
  }

  lemma IdleStep(s: Cluster, step: Step, s': Cluster)
    requires Next(s, step, s') && AllIdle(s) && !step.BeginScan?
    ensures AllIdle(s') && !step.ScanItem?
  {
  }

  lemma InitInv(s: Cluster)
    requires Init(s)
    ensures Inv(s) && EveryClaim(s, FirstBoot(s)) && AllIdle(s)
  {
  }

  /** The invariant holds throughout a run exactly as long as no item overwrites a newer boot's row: reboots and
      split scans together break it in this way and in no other. */
  lemma {:induction false} InvOverRun(run: Run, i: nat)
    requires ValidRun(run) && i < |run.states|
    ensures (forall m | 0 <= m <= i :: Inv(run.states[m])) <==> Unspoilt(run, i)
  {
    hide Next, Inv, Overwrites;
    if i == 0 {
      InitInv(run.states[0]);
    } else {
      InvOverRun(run, i - 1);
      assert Next(run.states[i - 1], run.steps[i - 1], run.states[i]);
      if Unspoilt(run, i - 1) {
        InvStep(run.states[i - 1], run.steps[i - 1], run.states[i]);
      }
    }
  }

  lemma RunInv(run: Run, i: nat)
    requires Unspoilt(run, i)
    ensures Inv(run.states[i])
  {
    InvOverRun(run, i);
  }

  /** What a step gives, without the invariant. */
  lemma RunReady(run: Run, i: nat)
    requires Unspoilt(run, i) && i < |run.steps|
    ensures Ready(run.states[i], run.steps[i], run.states[i + 1]) && ActorsOk(run.states[i], run.steps[i])
  {
    RunInv(run, i);
    assert Next(run.states[i], run.steps[i], run.states[i + 1]);
    StepReady(run.states[i], run.steps[i], run.states[i + 1]);
  }

  lemma RunNode(run: Run, i: nat, at: Endpoint)
    requires Unspoilt(run, i) && at in run.states[i].nodes
    ensures NodeOk(run.states[i], at)
  {
    RunInv(run, i);
    InvNode(run.states[i], at);
  }

  lemma RunLawful(run: Run, i: nat)
    requires Unspoilt(run, i)
    ensures EveryClaim(run.states[i], Lawful(run.states[i]))
  {
    RunInv(run, i);
  }

  // ------------------------------ when runs are unspoilt ------------------------------

  /** A cluster whose nodes compare boots before they act on an item never loses the invariant. */
  lemma {:induction false} SameBootsUnspoilt(run: Run, i: nat)
    requires SameBoots(run, i)
    ensures Unspoilt(run, i)
  {
    hide Next, Inv, Overwrites, CrossesBoots;
    if i == 0 {
    } else {
      SameBootsUnspoilt(run, i - 1);
      RunInv(run, i - 1);
      if Overwrites(run.states[i - 1], run.steps[i - 1]) {
        OverwriteCrossesBoots(run.states[i - 1], run.steps[i - 1]);
      }
    }
  }

  lemma FirstBootItem(s: Cluster, step: Step)
    requires EveryClaim(s, FirstBoot(s)) && (HasItem(s, step) ==> RootedAt(s, step.at))
    ensures !CrossesBoots(s, step)
  {
    if Marks(s, step) {
      hide EveryClaim;
      NodeClaims(s, step.at, FirstBoot(s));
      assert Item(s, step) in Todo(s.nodes[step.at].work);
      assert FirstBoot(s)(Item(s, step)) && FirstBoot(s)(Target(s, step));
    }
  }

  /** With one boot per endpoint every claim names it, and no item crosses boots. */
  lemma {:induction false} OneBootRun(run: Run, i: nat)
    requires ValidRun(run) && OneBoot(run) && i < |run.states|
    ensures SameBoots(run, i) && Unspoilt(run, i) && EveryClaim(run.states[i], FirstBoot(run.states[i]))
  {
    hide Next, EveryClaim, CrossesBoots, Overwrites;
    if i == 0 {
      InitInv(run.states[0]);
    } else {
      OneBootRun(run, i - 1);
      var (s, step) := (run.states[i - 1], run.steps[i - 1]);
      RunReady(run, i - 1);
      FirstBootStep(s, step, run.states[i]);
      if HasItem(s, step) {
        RunRooted(run, i - 1, step.at);
      }
      FirstBootItem(s, step);
      SameBootsUnspoilt(run, i);
    }
  }

  /** With atomic scans there are no items. */
  lemma {:induction false} AtomicRun(run: Run, i: nat)
    requires ValidRun(run) && AtomicScans(run) && i < |run.states|
    ensures SameBoots(run, i) && Unspoilt(run, i) && AllIdle(run.states[i])
  {
    hide Next, AllIdle;
    if i == 0 {
      InitInv(run.states[0]);
    } else {
      AtomicRun(run, i - 1);
      assert Next(run.states[i - 1], run.steps[i - 1], run.states[i]);
      IdleStep(run.states[i - 1], run.steps[i - 1], run.states[i]);
      SameBootsUnspoilt(run, i);
    }
  }

  lemma AtomicStep(run: Run, i: nat)
    requires ValidRun(run) && AtomicScans(run) && i < |run.steps|
    ensures !run.steps[i].ScanItem?
  {
    AtomicRun(run, i);
    assert Next(run.states[i], run.steps[i], run.states[i + 1]);
    IdleStep(run.states[i], run.steps[i], run.states[i + 1]);
  }

  /** So a run with one boot per endpoint, or with atomic scans, stays unspoilt. */
  lemma CoveredUnspoilt(run: Run, i: nat)
    requires Covered(run) && i < |run.states|
    ensures SameBoots(run, i) && Unspoilt(run, i)
  {
    if OneBoot(run) {
      OneBootRun(run, i);
    } else {
      AtomicRun(run, i);
    }
  }

  // ----------------------------------- the results -----------------------------------

  /** Own-entry safety: in every reachable state each running node's table holds its own row, under its
      own identity, Alive or Left: never Suspect, never Failed, never removed. */
  lemma OwnEntrySafety(run: Run, i: nat, at: Endpoint)
    requires Unspoilt(run, i) && at in run.states[i].nodes
    ensures var r := run.states[i].nodes[at].store;
      r.self.ep == at && at in r.table && r.table[at].id == r.self && (r.table[at].state == Alive || r.table[at].state == Left)
  {
    RunInv(run, i);
    assert NodeOk(run.states[i], at);
  }

  /** Incarnation authority: nothing, anywhere, claims a higher incarnation for a running boot than it has. */
  lemma IncarnationAuthority(run: Run, i: nat, c: Entry)
    requires Unspoilt(run, i) && IsClaim(run.states[i], c) && Runs(run.states[i], c.id)
    ensures var r := run.states[i].nodes[c.id.ep].store;
      c.id.ep in r.table && c.inc <= r.table[c.id.ep].inc
  {
    var s := run.states[i];
    RunInv(run, i);
    assert NodeOk(s, c.id.ep);
    ClaimHolds(s, Lawful(s), c);
  }

  // ------------------------------- one boot over time -------------------------------

  /** A boot's own incarnation never decreases while it runs. */
  lemma {:induction false} IncarnationGrows(run: Run, i: nat, j: nat, id: NodeId)
    requires Unspoilt(run, j) && i <= j && Runs(run.states[i], id) && Runs(run.states[j], id)
    ensures OwnInc(run.states[i], id) <= OwnInc(run.states[j], id)
    decreases j - i
  {
    if i == j {
    } else {
      var (s, step, s') := (run.states[i], run.steps[i], run.states[i + 1]);
      assert Next(s, step, s');
      RunsBetween(run, i, i + 1, j, id);
      RunInv(run, i);
      StepOwn(s, step, s', id.ep);
      IncarnationGrows(run, i + 1, j, id);
    }
  }

  // ----------------------------- refutation accounting -----------------------------

  /** Step `i` of the run happens while `id` runs, before and after. */
  ghost predicate During(run: Run, i: nat, id: NodeId)
    requires ValidRun(run) && i < |run.steps|
  {
    Runs(run.states[i], id) && Runs(run.states[i + 1], id)
  }

  /** How often `id` has refuted an accusation in the first `i` steps. */
  ghost function Refutations(run: Run, id: NodeId, i: nat): nat
    requires ValidRun(run) && i <= |run.steps|
  {
    if i == 0 then 0
    else
      var now := During(run, i - 1, id) && Refutes(run.states[i - 1], run.steps[i - 1], run.states[i], id.ep);
      Refutations(run, id, i - 1) + One(now)
  }

  /** How often `id` has been asked to leave in the first `i` steps. */
  ghost function Departures(run: Run, id: NodeId, i: nat): nat
    requires ValidRun(run) && i <= |run.steps|
  {
    if i == 0 then 0
    else Departures(run, id, i - 1) + One(During(run, i - 1, id) && run.steps[i - 1] == Leave(id.ep))
  }

  lemma NotYetBooted(run: Run, id: NodeId, i: nat)
    requires ValidRun(run) && 0 < i <= |run.steps|
    requires id.ep in run.states[i].boots ==> run.states[i].boots[id.ep] < id.ts
    ensures id.ep in run.states[i - 1].boots ==> run.states[i - 1].boots[id.ep] < id.ts
    ensures !Runs(run.states[i], id)
  {
    assert Next(run.states[i - 1], run.steps[i - 1], run.states[i]);
    BootsStep(run.states[i - 1], run.steps[i - 1], run.states[i], id.ep);
    if Runs(run.states[i], id) {
      RunRooted(run, i, id.ep);
    }
  }

  /** Before its boot an identity has done nothing. */
  lemma {:induction false} NothingBeforeBoot(run: Run, id: NodeId, i: nat)
    requires ValidRun(run) && i <= |run.steps|
    requires id.ep in run.states[i].boots ==> run.states[i].boots[id.ep] < id.ts
    ensures Refutations(run, id, i) == 0 && Departures(run, id, i) == 0
  {
    if i == 0 {
    } else {
      NotYetBooted(run, id, i);
      NothingBeforeBoot(run, id, i - 1);
    }
  }

  /** One step of the account. */
  lemma AccountingStep(run: Run, id: NodeId, i: nat)
    requires Unspoilt(run, i) && 0 < i && During(run, i - 1, id)
    ensures OwnInc(run.states[i], id) - OwnInc(run.states[i - 1], id)
      == Refutations(run, id, i) - Refutations(run, id, i - 1) + Departures(run, id, i) - Departures(run, id, i - 1)
  {
    hide Next, Inv, NodeOk, Refutes;
    var (s, step, s') := (run.states[i - 1], run.steps[i - 1], run.states[i]);
    assert Next(s, step, s');
    RunInv(run, i - 1);
    StepOwn(s, step, s', id.ep);
  }

  /** A boot starts its account at the initial incarnation. */
  lemma AccountingBoot(run: Run, id: NodeId, i: nat)
    requires ValidRun(run) && 0 < i <= |run.steps| && Runs(run.states[i], id) && !Runs(run.states[i - 1], id)
    ensures OwnInc(run.states[i], id) == FIRST_INCARNATION
    ensures Refutations(run, id, i) == 0 && Departures(run, id, i) == 0
  {
    assert Next(run.states[i - 1], run.steps[i - 1], run.states[i]);
    RunBase(run, i - 1);
    StartsByBooting(run.states[i - 1], run.steps[i - 1], run.states[i], id);
    NothingBeforeBoot(run, id, i - 1);
    assert !During(run, i - 1, id);
  }

  /** Refutation accounting: a running boot's incarnation is the initial one plus one for every accusation
      it refuted, at exactly its incarnation of the time, plus one for every request to leave. */
  lemma {:induction false} RefutationAccounting(run: Run, id: NodeId, i: nat)
    requires Unspoilt(run, i) && Runs(run.states[i], id)
    ensures OwnInc(run.states[i], id) == FIRST_INCARNATION + Refutations(run, id, i) + Departures(run, id, i)
  {
    if i == 0 {
    } else {
      if Runs(run.states[i - 1], id) {
        RefutationAccounting(run, id, i - 1);
        AccountingStep(run, id, i);
      } else {
        AccountingBoot(run, id, i);
      }
    }
  }

  /** Once refuted, an accusation is spent: it lies below the boot's incarnation from then on, so however
      often it is delivered again it makes the boot refute at most once. */
  lemma AccusationSpent(run: Run, id: NodeId, i: nat, j: nat, c: Entry)
    requires Unspoilt(run, j) && i < j && Runs(run.states[j], id)
    requires During(run, i, id) && Refutes(run.states[i], run.steps[i], run.states[i + 1], id.ep)
    requires c in Delivered(run.steps[i], id.ep) && c.id == id && Accuses(c)
    ensures c.inc < OwnInc(run.states[j], id)
  {
    var (s, step, s') := (run.states[i], run.steps[i], run.states[i + 1]);
    assert Next(s, step, s');
    RunInv(run, i);
    StepOwn(s, step, s', id.ep);
    IncarnationGrows(run, i + 1, j, id);
    if step.Receive? {
      assert c in step.m.list;
      assert IsClaim(s, c);
      IncarnationAuthority(run, i, c);
    } else {
      ReplyLawful(s, step, s');
      assert Lawful(s)(c);
      assert NodeOk(s, id.ep);
    }
  }
}
