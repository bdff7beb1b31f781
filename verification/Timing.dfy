/** What the clock guarantees: accusations are backed by elapsed time, and silent nodes are
    detected and forgotten within a bound. */
module Timing {
  import opened Wrappers
  import opened Identity
  import opened Membership
  import opened Scanner
  import opened Settings
  import opened Cluster
  import opened Claims
  import opened Safety
  import opened Rooting
  import opened SafetyRuns
  import opened Agreement

  // --------------------------- no accusation without evidence ---------------------------

  /** An accusation at `now` is as old as the timers demand. With suspicion off, `t.suspect` is zero. */
  ghost function Backed(t: Timers, now: int): Entry -> bool {
    (c: Entry) =>
      && (c.state == Suspect ==> t.suspect != 0 && now >= c.last + t.suspect)
      && (c.state == Failed ==> now >= c.last + t.suspect + t.fail)
  }

  lemma QuietRowsAt(s: Cluster, s': Cluster, at: Endpoint, e: Entry -> bool)
    requires ReadyAt(s, s', at)
    requires forall c: Entry | c.id.ep == at && !Accuses(c) :: e(c)
    ensures at in s.nodes ==> HasOwn(s.nodes[at]) && Both(FirstBoot(s'), e)(Shown(s.nodes[at], s.clock))
    ensures at in s'.nodes ==> HasOwn(s'.nodes[at]) && Both(FirstBoot(s'), e)(Own(s'.nodes[at]))
  {
  }

  /** A property that all quiet rows have is carried by the own rows of a step. */
  lemma QuietOwnRows(s: Cluster, step: Step, s': Cluster, e: Entry -> bool)
    requires Ready(s, step, s')
    requires forall at, c: Entry | at in Actors(step) && c.id.ep == at && !Accuses(c) :: e(c)
    ensures OwnRowsCarry(Both(FirstBoot(s'), e), s, step, s')
  {
    hide Next;
    forall at | at in Actors(step)
      ensures at in s.nodes ==> HasOwn(s.nodes[at]) && Both(FirstBoot(s'), e)(Shown(s.nodes[at], s.clock))
      ensures at in s'.nodes ==> HasOwn(s'.nodes[at]) && Both(FirstBoot(s'), e)(Own(s'.nodes[at]))
    {
      QuietRowsAt(s, s', at, e);
    }
  }

  /** While every claim names the one boot of its endpoint, nothing is ever restamped. */
  lemma NoRestamp(s': Cluster, e: Entry -> bool, now: int)
    ensures RestampClosed(Both(FirstBoot(s'), e), now)
  {
  }

  lemma BackedMarks(s: Cluster, step: Step, s': Cluster, t: Timers)
    requires Next(s, step, s') && !step.ScanItem?
    requires step.Scan? ==> step.at in s.nodes && s.nodes[step.at].timers == t
    ensures MarksCarry(Both(FirstBoot(s'), Backed(t, s'.clock)), s, step)
  {
    if step.Scan? {
      var p := Both(FirstBoot(s'), Backed(t, s'.clock));
      var self := s.nodes[step.at].store.self;
      forall c | p(c) && Judge(c, self, step.tick, t).Mark? ensures p(Sentenced(c, Judge(c, self, step.tick, t))) {
        MarkIsBacked(c, self, step.tick, t);
      }
    }
  }

  lemma BackedMono(s: Cluster, t: Timers, now: int)
    requires EveryClaim(s, Backed(t, s.clock)) && s.clock <= now
    ensures EveryClaim(s, Backed(t, now))
  {
    EveryClaimWeaken(s, Backed(t, s.clock), Backed(t, now));
  }

  /** How long after its timestamp a row may be marked. */
  function Due(state: State, t: Timers): int {
    if state == Suspect then t.suspect else t.suspect + t.fail
  }

  /** An item of a split scan marks a row that has been refreshed since the snapshot, so that the row's own
      timestamp does not warrant the mark. */
  predicate Hasty(s: Cluster, step: Step, t: Timers) {
    Marks(s, step) && s.clock < Target(s, step).last + Due(ItemVerdict(s, step).state, t)
  }

  /** One item, exactly. */
  lemma EvidenceItem(s: Cluster, step: Step, s': Cluster, t: Timers)
    requires step.ScanItem? && Next(s, step, s') && EveryClaim(s, Backed(t, s.clock))
    requires HasItem(s, step) && s.nodes[step.at].work.timers == t
    ensures EveryClaim(s', Backed(t, s'.clock)) <==> !Hasty(s, step, t)
  {
    hide Next, Judge, EveryClaim;
    ItemSites(s, step, s');
    var (n, e, p) := (s.nodes[step.at], Item(s, step), Backed(t, s.clock));
    var z := ItemSwept(n, s.clock);
    NodeClaims(s, step.at, p);
    if Marks(s, step) {
      MarkIsBacked(e, n.store.self, n.work.tick, n.work.timers);
      assert z.store.table[e.id.ep] == Marked(Target(s, step), e, ItemVerdict(s, step));
    }
    if Hasty(s, step, t) {
      if EveryClaim(s', p) {
        NodeClaims(s', step.at, p);
        assert false;
      }
    } else {
      assert NodeAll(z, p);
      PutClaims(s, step.at, z, p);
    }
  }

  lemma EvidenceStep(s: Cluster, step: Step, s': Cluster, t: Timers)
    requires Ready(s, step, s') && ActorsOk(s, step) && !step.ScanItem?
    requires step.Boot? ==> step.id.ep !in s.boots
    requires step.Scan? ==> step.at in s.nodes && s.nodes[step.at].timers == t
    requires EveryClaim(s, FirstBoot(s)) && EveryClaim(s, Backed(t, s.clock))
    ensures EveryClaim(s', Backed(t, s'.clock))
  {
    var (b, e) := (FirstBoot(s'), Backed(t, s'.clock));
    FirstBootMono(s, step, s');
    BackedMono(s, t, s'.clock);
    BothClaims(s, b, e);
    NoRestamp(s', e, s.clock);
    QuietOwnRows(s, step, s', e);
    BackedMarks(s, step, s', t);
    StepClaims(s, step, s', Both(b, e));
    BothClaims(s', b, e);
  }

  ghost predicate BackedAt(run: Run, t: Timers, i: nat)
    requires i < |run.states|
  {
    EveryClaim(run.states[i], Backed(t, run.states[i].clock))
  }

  /** What a step of a run with one boot per endpoint gives. */
  lemma OneBootReady(run: Run, i: nat)
    requires ValidRun(run) && OneBoot(run) && i < |run.steps|
    ensures Ready(run.states[i], run.steps[i], run.states[i + 1]) && ActorsOk(run.states[i], run.steps[i])
    ensures EveryClaim(run.states[i], FirstBoot(run.states[i]))
  {
    OneBootRun(run, i);
    RunReady(run, i);
  }

  lemma RunBackedStep(run: Run, t: Timers, i: nat)
    requires ValidRun(run) && OneBoot(run) && FixedTimers(run, t) && i < |run.steps| && BackedAt(run, t, i)
    ensures BackedAt(run, t, i + 1) <==> !Hasty(run.states[i], run.steps[i], t)
  {
    hide Next, EveryClaim;
    OneBootReady(run, i);
    TimersAreFixed(run, t, i);
    StepSites(run.states[i], run.steps[i], run.states[i + 1]);
    if run.steps[i].ScanItem? {
      ItemSites(run.states[i], run.steps[i], run.states[i + 1]);
      EvidenceItem(run.states[i], run.steps[i], run.states[i + 1], t);
    } else {
      EvidenceStep(run.states[i], run.steps[i], run.states[i + 1], t);
    }
  }

  /** With one boot per endpoint and unchanged timers, evidence stands behind every accusation throughout a
      run exactly as long as no split scan has marked a row refreshed since its snapshot. */
  lemma {:induction false} EvidenceOverRun(run: Run, t: Timers, i: nat)
    requires ValidRun(run) && OneBoot(run) && FixedTimers(run, t) && i < |run.states|
    ensures (forall m | 0 <= m <= i :: BackedAt(run, t, m))
      <==> (forall m | 0 <= m < i :: !Hasty(run.states[m], run.steps[m], t))
  {
    hide Hasty, BackedAt, Next;
    if i == 0 {
      NothingToBack(run, t);
    } else {
      EvidenceOverRun(run, t, i - 1);
      if BackedAt(run, t, i - 1) {
        RunBackedStep(run, t, i - 1);
      }
    }
  }

  lemma NothingToBack(run: Run, t: Timers)
    requires ValidRun(run)
    ensures BackedAt(run, t, 0)
  {
  }

  lemma AtomicScansAreNotHasty(run: Run, t: Timers, i: nat)
    requires ValidRun(run) && OneBoot(run) && AtomicScans(run) && i < |run.steps|
    ensures !Hasty(run.states[i], run.steps[i], t)
  {
    AtomicStep(run, i);
  }

  /** No accusation without evidence: with one boot per endpoint and unchanged timers, whoever is suspected
      anywhere has been silent for the suspicion timeout, and whoever is declared failed, for the
      suspicion and failure timeouts together, counted from the timestamp the claim itself carries; unless
      a split scan has marked a refreshed row before. */
  lemma NoAccusationWithoutEvidence(run: Run, t: Timers, i: nat, c: Entry)
    requires ValidRun(run) && OneBoot(run) && FixedTimers(run, t) && i < |run.states|
    requires AtomicScans(run) || forall m | 0 <= m < i :: !Hasty(run.states[m], run.steps[m], t)
    requires IsClaim(run.states[i], c)
    ensures c.state == Suspect ==> t.suspect != 0 && run.states[i].clock >= c.last + t.suspect
    ensures c.state == Failed ==> run.states[i].clock >= c.last + t.suspect + t.fail
  {
    forall m | 0 <= m < i ensures !Hasty(run.states[m], run.steps[m], t) {
      if AtomicScans(run) {
        AtomicScansAreNotHasty(run, t, m);
      }
    }
    EvidenceOverRun(run, t, i);
    assert BackedAt(run, t, i);
    ClaimHolds(run.states[i], Backed(t, run.states[i].clock), c);
  }

  /** Why one boot per endpoint is needed: the row of a newer boot is restamped with the receiver's time,
      so it stays backed exactly when it accuses nobody. */
  lemma RestampedEvidence(x: Entry, e: Entry, self: NodeId, suspicion: bool, t: Timers, now: int)
    requires e.id.ep == x.id.ep && e.id.ts > x.id.ts && ValidTimers(t) && Backed(t, now)(e)
    ensures Backed(t, now)(Resolve(Some(x), e, self, suspicion, now)) <==> !Accuses(e)
  {
  }

  // ------------------------------- strong completeness -------------------------------

  /** From step `j` on, the node at `x`, if there is one, does nothing. */
  ghost predicate Silent(run: Run, x: Endpoint, j: nat) {
    forall i | j <= i < |run.steps| :: x !in Actors(run.steps[i])
  }

  /** No claim about `x` is stamped later than `c`. */
  ghost function StampedBy(x: Endpoint, c: int): Entry -> bool {
    (e: Entry) => e.id.ep == x ==> e.last <= c
  }

  lemma StampedMarks(s: Cluster, step: Step, s': Cluster, x: Endpoint, c: int)
    ensures MarksCarry(Both(FirstBoot(s'), StampedBy(x, c)), s, step)
  {
  }

  lemma SilentStep(s: Cluster, step: Step, s': Cluster, x: Endpoint, c: int)
    requires Ready(s, step, s') && ActorsOk(s, step) && x !in Actors(step)
    requires step.Boot? ==> step.id.ep !in s.boots
    requires EveryClaim(s, FirstBoot(s)) && EveryClaim(s, StampedBy(x, c))
    ensures EveryClaim(s', StampedBy(x, c))
  {
    var (b, e) := (FirstBoot(s'), StampedBy(x, c));
    FirstBootMono(s, step, s');
    BothClaims(s, b, e);
    NoRestamp(s', e, s.clock);
    QuietOwnRows(s, step, s', e);
    StampedMarks(s, step, s', x, c);
    StepClaims(s, step, s', Both(b, e));
    BothClaims(s', b, e);
  }

  lemma DatedIsStamped(s: Cluster, x: Endpoint)
    requires EveryClaim(s, Dated(s))
    ensures EveryClaim(s, StampedBy(x, s.clock))
  {
    EveryClaimWeaken(s, Dated(s), StampedBy(x, s.clock));
  }

  lemma RunSilentStep(run: Run, x: Endpoint, i: nat, c: int)
    requires ValidRun(run) && OneBoot(run) && i < |run.steps| && x !in Actors(run.steps[i])
    requires EveryClaim(run.states[i], StampedBy(x, c))
    ensures EveryClaim(run.states[i + 1], StampedBy(x, c))
  {
    OneBootReady(run, i);
    SilentStep(run.states[i], run.steps[i], run.states[i + 1], x, c);
  }

  lemma {:induction false} RunSilent(run: Run, x: Endpoint, j: nat, i: nat)
    requires ValidRun(run) && OneBoot(run) && j <= i < |run.states| && Silent(run, x, j)
    ensures EveryClaim(run.states[i], StampedBy(x, run.states[j].clock))
    decreases i - j
  {
    if i == j {
      RunBase(run, i);
      DatedIsStamped(run.states[i], x);
    } else {
      RunSilent(run, x, j, i - 1);
      RunSilentStep(run, x, i - 1, run.states[j].clock);
    }
  }

  /** What a scan makes of a row last stamped by `c`. */
  lemma LateRow(e: Entry, self: NodeId, tick: int, t: Timers, c: int)
    requires e.id != self && e.last <= c && e.state != Unknown
    ensures tick >= c + t.suspect + t.fail ==>
      var z := SweepRow(e, self, tick, t); z.None? || z.value.state == Failed || z.value.state == Left
    ensures tick >= c + t.suspect + t.fail + t.cleanup ==> SweepRow(e, self, tick, t).None?
  {
  }

  /** The row a scan step of a node that has not left leaves for another endpoint. */
  lemma ScannedRow(s: Cluster, at: Endpoint, tick: int, s': Cluster, x: Endpoint)
    requires ScanNext(s, at, tick, s') && RootedAt(s, at) && !HasLeft(s.nodes[at].store) && x != at
    ensures at in s'.nodes
    ensures Get(s'.nodes[at].store.table, x) ==
      match Get(s.nodes[at].store.table, x)
      case None => None
      case Some(e) => SweepRow(e, s.nodes[at].store.self, tick, s.nodes[at].timers)
  {
    PassRows(s.nodes[at].store, s.clock, tick, s.nodes[at].timers, x);
  }

  /** Strong completeness with a time bound: whatever is lost, duplicated, delayed or re-inserted, and however
      other scans are split, any scan late enough after a node's last step leaves it failed, left or
      forgotten at the scanning node, and any scan later still leaves it forgotten. */
  lemma StrongCompleteness(run: Run, t: Timers, x: Endpoint, j: nat, i: nat)
    requires ValidRun(run) && OneBoot(run) && FixedTimers(run, t)
    requires j <= i < |run.steps| && Silent(run, x, j) && run.steps[i].Scan?
    requires run.steps[i].at in run.states[i].nodes && !HasLeft(run.states[i].nodes[run.steps[i].at].store)
    ensures var (c, at, tick) := (run.states[j].clock, run.steps[i].at, run.steps[i].tick);
      at in run.states[i + 1].nodes
      && var row := Get(run.states[i + 1].nodes[at].store.table, x);
         (tick >= c + t.suspect + t.fail ==> row.None? || row.value.state == Failed || row.value.state == Left)
         && (tick >= c + t.suspect + t.fail + t.cleanup ==> row.None?)
  {
    var (s, step, s') := (run.states[i], run.steps[i], run.states[i + 1]);
    var at := step.at;
    assert Next(s, step, s');
    RunBase(run, i);
    RunRooted(run, i, at);
    RunSilent(run, x, j, i);
    TimersAreFixed(run, t, i);
    assert x != at;
    ScannedRow(s, at, step.tick, s', x);
    if x in s.nodes[at].store.table {
      var e := s.nodes[at].store.table[x];
      assert IsClaim(s, e);
      ClaimHolds(s, StampedBy(x, run.states[j].clock), e);
      ClaimHolds(s, Dated(s), e);
      LateRow(e, s.nodes[at].store.self, step.tick, t, run.states[j].clock);
    }
  }

  /** The same for a scan that is itself split, at its item about the silent node: late enough, it marks or
      forgets whatever row the table has by then if the snapshot showed the node neither failed nor left;
      later still, it forgets the row in any case. */
  lemma ItemCompleteness(run: Run, t: Timers, x: Endpoint, j: nat, i: nat)
    requires ValidRun(run) && OneBoot(run) && FixedTimers(run, t)
    requires j <= i < |run.steps| && Silent(run, x, j) && run.steps[i].ScanItem?
    requires HasItem(run.states[i], run.steps[i]) && Item(run.states[i], run.steps[i]).id.ep == x
    ensures var (c, at, e) := (run.states[j].clock, run.steps[i].at, Item(run.states[i], run.steps[i]));
      at in run.states[i + 1].nodes
      && var (row, w) := (Get(run.states[i + 1].nodes[at].store.table, x), run.states[i].nodes[at].work);
         && (w.tick >= c + t.suspect + t.fail && (e.state == Alive || e.state == Suspect)
             ==> row.None? || row.value.state == Failed)
         && (w.tick >= c + t.suspect + t.fail + t.cleanup ==> row.None?)
  {
    hide EveryClaim, Rooted, Next;
    var (s, step, s') := (run.states[i], run.steps[i], run.states[i + 1]);
    var (at, e) := (step.at, Item(s, step));
    assert Next(s, step, s');
    RunBase(run, i);
    RunRooted(run, i, at);
    RunSilent(run, x, j, i);
    TimersAreFixed(run, t, i);
    assert x != at;
    assert e in Todo(s.nodes[at].work) && IsClaim(s, e);
    ClaimHolds(s, StampedBy(x, run.states[j].clock), e);
    ClaimHolds(s, Dated(s), e);
    ItemEffect(s, step, s', x);
  }

  // ------------------------------ no row is forgotten early ------------------------------

  lemma ReceiveKeeps(n: Node, m: Message, now: int)
    ensures n.store.table.Keys <= Snapped(Received(n, m, now), now).store.table.Keys
    ensures n.store.table.Keys <= Received(n, m, now).store.table.Keys
  {
    MergeKeeps(Refresh(Configured(n, m.cfg).store, now), m.list, now);
  }

  lemma JoinKeeps(n: Node, d: Dto, list: seq<Entry>, now: int)
    ensures n.store.table.Keys <= Greeted(n, list, now).store.table.Keys
    ensures n.store.table.Keys <= Welcomed(n, d, list, now).store.table.Keys
    ensures n.store.table.Keys <= Snapped(n, now).store.table.Keys
  {
    MergeKeeps(n.store, list, now);
    MergeKeeps(Configured(Snapped(n, now), d).store, list, now);
  }

  lemma KeysKept(s: Cluster, step: Step, s': Cluster, at: Endpoint)
    requires Next(s, step, s') && at in s.nodes && at in s'.nodes && !step.Scan? && !step.ScanItem?
    ensures s.nodes[at].store.table.Keys <= s'.nodes[at].store.table.Keys
  {
    hide Listing, ApplyRuntime, Received, Welcomed, Greeted;
    var n := s.nodes[at];
    if at in Actors(step) {
      match step
      case Receive(_, m, _) => ReceiveKeeps(n, m, s.clock);
      case Join(_, via, ask, reply, _) =>
        JoinKeeps(n, ToDto(n.cfg), ask, s.clock);
        JoinKeeps(n, ToDto(Greeted(s.nodes[via], ask, s.clock).cfg), reply, s.clock);
      case _ =>
    }
  }

  /** The step is a scan at `at`, which has not left, and the row for the peer `x` has expired; or it is the
      item about `x` of a split scan, and the row for `x` in the snapshot had expired. */
  ghost predicate Forgets(s: Cluster, step: Step, at: Endpoint, x: Endpoint)
    requires at in s.nodes && x in s.nodes[at].store.table
  {
    var n := s.nodes[at];
    && x != at
    && match step
       case Scan(a, tick) => a == at && !HasLeft(n.store) && Expired(n.store.table[x], tick, n.timers)
       case ScanItem(a) =>
         && a == at && HasItem(s, step) && Item(s, step).id.ep == x
         && Expired(Item(s, step), n.work.tick, n.work.timers)
       case _ => false
  }

  /** No row is forgotten early: in every valid run a node forgets a row exactly when a scan finds it expired, or
      an item of a split scan found it so in its snapshot. */
  lemma NoRowForgottenEarly(run: Run, i: nat, at: Endpoint, x: Endpoint)
    requires ValidRun(run) && i < |run.steps|
    requires at in run.states[i].nodes && at in run.states[i + 1].nodes && x in run.states[i].nodes[at].store.table
    ensures x !in run.states[i + 1].nodes[at].store.table <==> Forgets(run.states[i], run.steps[i], at, x)
  {
    hide Next, EveryClaim;
    var (s, step, s') := (run.states[i], run.steps[i], run.states[i + 1]);
    assert Next(s, step, s');
    RunRooted(run, i, at);
    if step.Scan? {
      ForgottenRow(s, step, s', at, x);
    } else if step.ScanItem? {
      ForgottenItem(s, step, s', at, x);
    } else {
      KeysKept(s, step, s', at);
    }
  }

  lemma ForgottenRow(s: Cluster, step: Step, s': Cluster, at: Endpoint, x: Endpoint)
    requires step.Scan? && Next(s, step, s') && at in s.nodes && at in s'.nodes && AnchoredAt(s, at)
    requires x in s.nodes[at].store.table
    ensures x !in s'.nodes[at].store.table <==> Forgets(s, step, at, x)
  {
    if step.at == at && !HasLeft(s.nodes[at].store) {
      var n := s.nodes[at];
      if x == at {
        ScannedRooted(n, s.clock, step.tick);
      } else {
        ScannedRow(s, at, step.tick, s', x);
        DiscardIffExpired(n.store.table[x], n.store.self, step.tick, n.timers);
      }
    }
  }

  lemma ForgottenItem(s: Cluster, step: Step, s': Cluster, at: Endpoint, x: Endpoint)
    requires step.ScanItem? && Next(s, step, s') && at in s.nodes && at in s'.nodes && AnchoredAt(s, at)
    requires x in s.nodes[at].store.table
    ensures x !in s'.nodes[at].store.table <==> Forgets(s, step, at, x)
  {
    if step.at == at {
      ItemEffect(s, step, s', x);
      var n := s.nodes[at];
      if x == at {
        ItemRooted(n, s.clock);
      } else if Item(s, step).id.ep == x {
        DiscardIffExpired(Item(s, step), n.store.self, n.work.tick, n.work.timers);
      }
    }
  }
}
