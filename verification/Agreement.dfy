/** The configuration as replicated state: where every copy comes from, and agreement under one writer. */
module Agreement {
  import opened Wrappers
  import opened Identity
  import opened Membership
  import opened Scanner
  import opened Settings
  import opened Cluster
  import opened Claims
  import opened Rooting

  /** Every copy a node could send: of its live configuration, of the one it booted with, and those its
      loops have cached. */
  ghost function NodeDtos(n: Node): set<Dto> {
    {ToDto(n.cfg), ToDto(n.booted)} + Cached(n.loops)
  }

  ghost predicate NodeDtosAll(n: Node, q: Dto -> bool) {
    forall d | d in NodeDtos(n) :: q(d)
  }

  ghost predicate EveryDto(s: Cluster, q: Dto -> bool) {
    && (forall at | at in s.nodes :: NodeDtosAll(s.nodes[at], q))
    && (forall m | m in s.soup :: q(m.cfg))
  }

  /** What a step writes from outside the cluster: the configuration of a boot, the change of an administrator. */
  ghost predicate Writes(s: Cluster, step: Step, d: Dto) {
    match step
    case Boot(_, cfg) => d == ToDto(cfg)
    case Admin(at, dto) =>
      at in s.nodes && d == Renumbered(s.nodes[at].cfg, dto) && Accepts(s.nodes[at].cfg, d)
    case _ => false
  }

  lemma ConfiguredDtos(n: Node, d: Dto, q: Dto -> bool)
    requires NodeDtosAll(n, q) && (Accepts(n.cfg, d) ==> q(d))
    ensures NodeDtosAll(Configured(n, d), q)
  {
    if Accepts(n.cfg, d) {
      DtoRoundTrip(n.cfg, n.cfg, d);
      CachedProvenance(n.loops, n.cfg, Adopted(n.cfg, d));
    }
  }

  lemma StartedDtos(n: Node, q: Dto -> bool)
    requires NodeDtosAll(n, q)
    ensures NodeDtosAll(Started(n), q)
  {
    CachedProvenance(n.loops, n.booted, n.booted);
  }

  lemma SameDtos(n: Node, n': Node, q: Dto -> bool)
    requires NodeDtosAll(n, q) && n'.cfg == n.cfg && n'.booted == n.booted && n'.loops == n.loops
    ensures NodeDtosAll(n', q)
  {
  }

  lemma ReceiveDtos(s: Cluster, step: Step, s': Cluster, q: Dto -> bool)
    requires step.Receive? && Next(s, step, s') && EveryDto(s, q)
    ensures EveryDto(s', q)
  {
    var Receive(at, m, ack) := step;
    var n := s.nodes[at];
    assert NodeDtosAll(n, q);
    ConfiguredDtos(n, m.cfg, q);
    SameDtos(Configured(n, m.cfg), s'.nodes[at], q);
  }

  lemma JoinDtos(s: Cluster, step: Step, s': Cluster, q: Dto -> bool)
    requires step.Join? && Next(s, step, s') && EveryDto(s, q)
    ensures EveryDto(s', q)
  {
    var Join(at, via, ask, reply, answered) := step;
    var (n, i) := (s.nodes[at], Greeted(s.nodes[via], ask, s.clock));
    assert NodeDtosAll(n, q) && NodeDtosAll(s.nodes[via], q);
    SameDtos(s.nodes[via], i, q);
    assert ToDto(i.cfg) in NodeDtos(i);
    SameDtos(n, Snapped(n, s.clock), q);
    if answered {
      var c := Configured(Snapped(n, s.clock), ToDto(i.cfg));
      ConfiguredDtos(Snapped(n, s.clock), ToDto(i.cfg), q);
      SameDtos(c, Heard(c, reply, s.clock), q);
      StartedDtos(Heard(c, reply, s.clock), q);
    }
  }

  /** Provenance of configurations: no step brings in a copy that was not there, except what it writes. */
  lemma StepDtos(s: Cluster, step: Step, s': Cluster, q: Dto -> bool)
    requires Next(s, step, s') && EveryDto(s, q)
    requires forall d | Writes(s, step, d) :: q(d)
    ensures EveryDto(s', q)
  {
    hide Next, EveryDto;
    match step
    case Advance(_) => QuietDtos(s, step, s', q);
    case Crash(_) => QuietDtos(s, step, s', q);
    case Boot(_, _) => BootDtos(s, step, s', q);
    case Join(_, _, _, _, _) => JoinDtos(s, step, s', q);
    case Receive(_, _, _) => ReceiveDtos(s, step, s', q);
    case Admin(_, _) => AdminDtos(s, step, s', q);
    case Scan(at, _) => SameStep(s, step, s', at, q);
    case ScanItem(at) => SameStep(s, step, s', at, q);
    case Send(at, _) => SameStep(s, step, s', at, q);
    case BeginScan(at, _, _) => SameStep(s, step, s', at, q);
    case Leave(at) => SameStep(s, step, s', at, q);
  }

  lemma QuietDtos(s: Cluster, step: Step, s': Cluster, q: Dto -> bool)
    requires (step.Advance? || step.Crash?) && Next(s, step, s') && EveryDto(s, q)
    ensures EveryDto(s', q)
  {
  }

  lemma BootDtos(s: Cluster, step: Step, s': Cluster, q: Dto -> bool)
    requires step.Boot? && Next(s, step, s') && EveryDto(s, q)
    requires forall d | Writes(s, step, d) :: q(d)
    ensures EveryDto(s', q)
  {
    assert Writes(s, step, ToDto(step.cfg));
    var n := BootNode(step.id, step.cfg, s.clock);
    var idle := n.(loops := Loops(None, None, {}), started := false);
    assert NodeDtosAll(idle, q);
    StartedDtos(idle, q);
  }

  lemma AdminDtos(s: Cluster, step: Step, s': Cluster, q: Dto -> bool)
    requires step.Admin? && Next(s, step, s') && EveryDto(s, q)
    requires forall d | Writes(s, step, d) :: q(d)
    ensures EveryDto(s', q)
  {
    var n := s.nodes[step.at];
    var d := Renumbered(n.cfg, step.dto);
    assert NodeDtosAll(n, q);
    assert Accepts(n.cfg, d) ==> Writes(s, step, d);
    ConfiguredDtos(n, d, q);
  }

  lemma SameStep(s: Cluster, step: Step, s': Cluster, at: Endpoint, q: Dto -> bool)
    requires Next(s, step, s') && EveryDto(s, q) && at in Actors(step)
    requires step.Scan? || step.ScanItem? || step.Send? || step.BeginScan? || step.Leave?
    ensures EveryDto(s', q)
  {
    hide Refresh, Listing, ApplyRuntime;
    assert NodeDtosAll(s.nodes[at], q);
    if at in s'.nodes {
      SameDtos(s.nodes[at], s'.nodes[at], q);
    }
  }

  /** A property of everything ever written is a property of every copy in every reachable state. */
  lemma {:induction false} RunDtos(run: Run, i: nat, q: Dto -> bool)
    requires ValidRun(run) && i < |run.states|
    requires forall j, d | 0 <= j < |run.steps| && Writes(run.states[j], run.steps[j], d) :: q(d)
    ensures EveryDto(run.states[i], q)
  {
    if i == 0 {
    } else {
      RunDtos(run, i - 1, q);
      assert Next(run.states[i - 1], run.steps[i - 1], run.states[i]);
      StepDtos(run.states[i - 1], run.steps[i - 1], run.states[i], q);
    }
  }

  // ---------------------------- what a node runs with ----------------------------

  /** Store and scanner run with the timers of a valid live configuration. */
  ghost predicate Tuned(n: Node) {
    && ValidKnobs(n.cfg.knobs) && ValidKnobs(n.booted.knobs)
    && n.timers == TimersOf(n.cfg) && n.store.tSuspect == n.cfg.knobs.tSuspect
  }

  lemma TunedStep(s: Cluster, step: Step, s': Cluster)
    requires Next(s, step, s') && (forall at | at in s.nodes :: Tuned(s.nodes[at]))
    ensures forall at | at in s'.nodes :: Tuned(s'.nodes[at])
  {
    forall at | at in s'.nodes ensures Tuned(s'.nodes[at]) {
      if at in Actors(step) && at in s.nodes {
        TunedActor(s, step, s', at);
      }
    }
  }

  lemma TunedConfigured(n: Node, d: Dto)
    requires Tuned(n)
    ensures Tuned(Configured(n, d))
  {
  }

  lemma TunedHeard(n: Node, list: seq<Entry>, now: int)
    requires Tuned(n)
    ensures Tuned(Heard(n, list, now)) && Tuned(Snapped(n, now))
  {
    MergeKeeps(n.store, list, now);
  }

  lemma TunedReceived(n: Node, m: Message, now: int)
    requires Tuned(n)
    ensures Tuned(Received(n, m, now)) && Tuned(Snapped(Received(n, m, now), now))
  {
    TunedConfigured(n, m.cfg);
    TunedHeard(Configured(n, m.cfg), [], now);
    TunedHeard(Snapped(Configured(n, m.cfg), now), m.list, now);
    TunedHeard(Received(n, m, now), [], now);
  }

  lemma TunedWelcomed(n: Node, d: Dto, reply: seq<Entry>, now: int)
    requires Tuned(n)
    ensures Tuned(Welcomed(n, d, reply, now)) && Tuned(Greeted(n, reply, now)) && Tuned(Snapped(n, now))
  {
    TunedHeard(n, reply, now);
    TunedHeard(Heard(n, reply, now), [], now);
    TunedConfigured(Snapped(n, now), d);
    TunedHeard(Configured(Snapped(n, now), d), reply, now);
  }

  lemma TunedActor(s: Cluster, step: Step, s': Cluster, at: Endpoint)
    requires Next(s, step, s') && at in s.nodes && at in s'.nodes && at in Actors(step) && Tuned(s.nodes[at])
    ensures Tuned(s'.nodes[at])
  {
    var n := s.nodes[at];
    match step
    case Receive(_, m, _) => TunedReceived(n, m, s.clock);
    case Join(a, via, ask, reply, answered) =>
      TunedWelcomed(n, ToDto(Greeted(s.nodes[via], ask, s.clock).cfg), reply, s.clock);
      TunedWelcomed(n, ToDto(n.cfg), ask, s.clock);
    case Admin(_, dto) => TunedConfigured(n, Renumbered(n.cfg, dto));
    case Send(_, _) => TunedHeard(n, [], s.clock);
    case _ =>
  }

  lemma {:induction false} RunTuned(run: Run, i: nat)
    requires ValidRun(run) && i < |run.states|
    ensures forall at | at in run.states[i].nodes :: Tuned(run.states[i].nodes[at])
  {
    if i == 0 {
    } else {
      RunTuned(run, i - 1);
      assert Next(run.states[i - 1], run.steps[i - 1], run.states[i]);
      TunedStep(run.states[i - 1], run.steps[i - 1], run.states[i]);
    }
  }

  /** The timers that nodes, and the scans they have in progress, run with satisfy `q`. */
  ghost predicate NodeTimers(s: Cluster, q: Timers -> bool) {
    forall at | at in s.nodes :: q(s.nodes[at].timers)
  }

  ghost predicate SweepTimers(s: Cluster, q: Timers -> bool) {
    forall at | at in s.nodes && s.nodes[at].work.Sweeping? :: q(s.nodes[at].work.timers)
  }

  /** A scan in progress goes on with what it read when it began. */
  lemma SweepTimersStep(s: Cluster, step: Step, s': Cluster, q: Timers -> bool)
    requires Next(s, step, s') && NodeTimers(s, q) && SweepTimers(s, q)
    ensures SweepTimers(s', q)
  {
    hide Listing, ApplyRuntime, Refresh, Merge, SweepItem;
  }

  lemma {:induction false} RunSweepTimers(run: Run, i: nat, q: Timers -> bool)
    requires ValidRun(run) && i < |run.states|
    requires forall j | 0 <= j < i :: NodeTimers(run.states[j], q)
    ensures SweepTimers(run.states[i], q)
  {
    if i == 0 {
    } else {
      RunSweepTimers(run, i - 1, q);
      assert Next(run.states[i - 1], run.steps[i - 1], run.states[i]);
      SweepTimersStep(run.states[i - 1], run.steps[i - 1], run.states[i], q);
    }
  }

  /** Every configuration written in the run has the timers `t`. */
  ghost predicate FixedTimers(run: Run, t: Timers)
    requires ValidRun(run)
  {
    forall j, d | 0 <= j < |run.steps| && Writes(run.states[j], run.steps[j], d) :: HasTimers(t)(d)
  }

  ghost function HasTimers(t: Timers): Dto -> bool {
    (d: Dto) => d.tSuspect == Nanos(t.suspect) && d.tFail == Nanos(t.fail) && d.tCleanup == Nanos(t.cleanup)
  }

  ghost function Exactly(t: Timers): Timers -> bool {
    (u: Timers) => u == t
  }

  lemma NodeTimersAreFixed(run: Run, t: Timers, i: nat)
    requires ValidRun(run) && FixedTimers(run, t) && i < |run.states|
    ensures NodeTimers(run.states[i], Exactly(t))
  {
    RunDtos(run, i, HasTimers(t));
    RunTuned(run, i);
    forall at | at in run.states[i].nodes ensures run.states[i].nodes[at].timers == t {
      var n := run.states[i].nodes[at];
      assert NodeDtosAll(n, HasTimers(t)) && ToDto(n.cfg) in NodeDtos(n);
      assert HasTimers(t)(ToDto(n.cfg));
    }
  }

  lemma TimersAreFixed(run: Run, t: Timers, i: nat)
    requires ValidRun(run) && FixedTimers(run, t) && i < |run.states|
    ensures forall at | at in run.states[i].nodes ::
      var n := run.states[i].nodes[at];
      n.timers == t && (n.work.Sweeping? ==> n.work.timers == t)
  {
    forall j | 0 <= j <= i ensures NodeTimers(run.states[j], Exactly(t)) {
      NodeTimersAreFixed(run, t, j);
    }
    RunSweepTimers(run, i, Exactly(t));
    assert NodeTimers(run.states[i], Exactly(t));
  }

  /** Every configuration written in the run has suspicion enabled. */
  ghost predicate SuspicionOn(run: Run)
    requires ValidRun(run)
  {
    forall j, d | 0 <= j < |run.steps| && Writes(run.states[j], run.steps[j], d) :: Suspicious()(d)
  }

  ghost function Suspicious(): Dto -> bool {
    (d: Dto) => d.tSuspect != Nanos(0)
  }

  ghost function Suspecting(): Timers -> bool {
    (u: Timers) => u.suspect != 0
  }

  lemma NodesSuspect(run: Run, i: nat)
    requires ValidRun(run) && SuspicionOn(run) && i < |run.states|
    ensures NodeTimers(run.states[i], Suspecting())
    ensures forall at | at in run.states[i].nodes :: run.states[i].nodes[at].store.tSuspect != 0
  {
    RunDtos(run, i, Suspicious());
    RunTuned(run, i);
    forall at | at in run.states[i].nodes
      ensures run.states[i].nodes[at].timers.suspect != 0 && run.states[i].nodes[at].store.tSuspect != 0
    {
      var n := run.states[i].nodes[at];
      assert NodeDtosAll(n, Suspicious()) && ToDto(n.cfg) in NodeDtos(n);
      assert Suspicious()(ToDto(n.cfg));
    }
  }

  ghost predicate SuspectsAt(s: Cluster, at: Endpoint)
    requires at in s.nodes
  {
    var n := s.nodes[at];
    n.timers.suspect != 0 && n.store.tSuspect != 0 && (n.work.Sweeping? ==> n.work.timers.suspect != 0)
  }

  lemma SuspicionStaysOn(run: Run, i: nat)
    requires ValidRun(run) && SuspicionOn(run) && i < |run.states|
    ensures forall at | at in run.states[i].nodes :: SuspectsAt(run.states[i], at)
  {
    forall j | 0 <= j <= i ensures NodeTimers(run.states[j], Suspecting()) {
      NodesSuspect(run, j);
    }
    RunSweepTimers(run, i, Suspecting());
    NodesSuspect(run, i);
  }

  // ------------------------------ agreement ------------------------------

  /** All nodes boot with the same knobs under the same version, and only the boot `w` takes orders. */
  ghost predicate OneWriter(run: Run, w: NodeId, first: Dto)
    requires |run.states| == |run.steps| + 1
  {
    forall i | 0 <= i < |run.steps| ::
      && (run.steps[i].Boot? ==> ToDto(run.steps[i].cfg) == first)
      && (run.steps[i].Admin? ==> run.steps[i].at == w.ep && Runs(run.states[i], w))
  }

  /** The version history `h` explains the copy. */
  ghost function InHistory(h: map<int, Dto>): Dto -> bool {
    (d: Dto) => d.version in h && h[d.version] == d
  }

  ghost predicate NotBooted(s: Cluster, id: NodeId) {
    id.ep in s.boots ==> s.boots[id.ep] < id.ts
  }

  /** `h` explains every copy; nothing in it is newer than the writer, and before the writer boots there
      is nothing in it but the first configuration. */
  ghost predicate Explains(h: map<int, Dto>, s: Cluster, w: NodeId, first: Dto) {
    && EveryDto(s, InHistory(h))
    && first.version in h && h[first.version] == first
    && (Runs(s, w) ==> forall v | v in h :: v <= s.nodes[w.ep].cfg.version)
    && (NotBooted(s, w) ==> h.Keys == {first.version})
  }

  lemma VersionStep(s: Cluster, step: Step, s': Cluster, at: Endpoint)
    requires Next(s, step, s') && at in s.nodes && at in s'.nodes
    ensures s'.nodes[at].cfg.version >= s.nodes[at].cfg.version
    ensures !Accepting(step) ==> s'.nodes[at].cfg == s.nodes[at].cfg
  {
  }

  predicate Accepting(step: Step) {
    step.Receive? || step.Join? || step.Admin?
  }

  lemma HistoryWidens(s: Cluster, h: map<int, Dto>, d: Dto)
    requires EveryDto(s, InHistory(h)) && d.version !in h
    ensures EveryDto(s, InHistory(h[d.version := d]))
  {
    var h' := h[d.version := d];
    assert forall e :: InHistory(h)(e) ==> InHistory(h')(e);
    forall at | at in s.nodes ensures NodeDtosAll(s.nodes[at], InHistory(h')) {
      assert NodeDtosAll(s.nodes[at], InHistory(h));
    }
  }

  /** The writer's next change extends the history above everything in it. */
  lemma AdminExplained(s: Cluster, step: Step, s': Cluster, w: NodeId, first: Dto, h: map<int, Dto>)
    returns (h': map<int, Dto>)
    requires Next(s, step, s') && Explains(h, s, w, first)
    requires step.Admin? && step.at == w.ep && Runs(s, w) && Seated(s, w.ep)
    ensures Explains(h', s', w, first)
  {
    var c := s.nodes[w.ep].cfg;
    var d := Renumbered(c, step.dto);
    h' := if Accepts(c, d) then h[d.version := d] else h;
    AdminCopies(s, step, s', h);
    DtoRoundTrip(c, c, d);
    assert s'.boots == s.boots && !NotBooted(s, w);
    assert s'.nodes[w.ep].cfg == Adopted(c, d);
  }

  lemma AdminCopies(s: Cluster, step: Step, s': Cluster, h: map<int, Dto>)
    requires step.Admin? && Next(s, step, s') && EveryDto(s, InHistory(h))
    requires forall v | v in h :: v <= s.nodes[step.at].cfg.version
    ensures var (c, d) := (s.nodes[step.at].cfg, Renumbered(s.nodes[step.at].cfg, step.dto));
      EveryDto(s', InHistory(if Accepts(c, d) then h[d.version := d] else h))
  {
    var c := s.nodes[step.at].cfg;
    var d := Renumbered(c, step.dto);
    var h' := if Accepts(c, d) then h[d.version := d] else h;
    if Accepts(c, d) {
      HistoryWidens(s, h, d);
    }
    StepDtos(s, step, s', InHistory(h'));
  }

  /** Any other step leaves the history as it is. */
  lemma StepExplained(s: Cluster, step: Step, s': Cluster, w: NodeId, first: Dto, h: map<int, Dto>)
    requires Base(s) && Next(s, step, s') && Explains(h, s, w, first)
    requires !step.Admin? && (step.Boot? ==> ToDto(step.cfg) == first)
    ensures Explains(h, s', w, first)
  {
    hide Next, EveryDto, Base;
    assert forall e :: Writes(s, step, e) ==> e == first && InHistory(h)(e);
    StepDtos(s, step, s', InHistory(h));
    BootsStep(s, step, s', w.ep);
    if Runs(s', w) {
      WriterStep(s, step, s', w);
    }
  }

  lemma WriterStep(s: Cluster, step: Step, s': Cluster, id: NodeId)
    requires Base(s) && Next(s, step, s') && Runs(s', id)
    ensures Runs(s, id) ==> s'.nodes[id.ep].cfg.version >= s.nodes[id.ep].cfg.version
    ensures !Runs(s, id) ==> NotBooted(s, id) && step.Boot? && s'.nodes[id.ep].cfg == step.cfg
  {
    hide Next;
    if Runs(s, id) {
      VersionStep(s, step, s', id.ep);
    } else {
      StartsByBooting(s, step, s', id);
    }
  }

  lemma HistoryStep(run: Run, w: NodeId, first: Dto, i: nat, h: map<int, Dto>) returns (h': map<int, Dto>)
    requires ValidRun(run) && OneWriter(run, w, first) && i < |run.steps|
    requires Explains(h, run.states[i], w, first)
    ensures Explains(h', run.states[i + 1], w, first)
  {
    assert Next(run.states[i], run.steps[i], run.states[i + 1]);
    if run.steps[i].Admin? {
      RunRooted(run, i, w.ep);
      h' := AdminExplained(run.states[i], run.steps[i], run.states[i + 1], w, first, h);
    } else {
      h' := h;
      RunBase(run, i);
      StepExplained(run.states[i], run.steps[i], run.states[i + 1], w, first, h);
    }
  }

  lemma {:induction false} History(run: Run, w: NodeId, first: Dto, i: nat) returns (h: map<int, Dto>)
    requires ValidRun(run) && OneWriter(run, w, first) && i < |run.states|
    ensures Explains(h, run.states[i], w, first)
  {
    if i == 0 {
      h := map[first.version := first];
    } else {
      h := History(run, w, first, i - 1);
      h := HistoryStep(run, w, first, i - 1, h);
    }
  }

  /** `d` is a copy held, cached or in flight. */
  ghost predicate IsCopy(s: Cluster, d: Dto) {
    || (exists at :: at in s.nodes && d in NodeDtos(s.nodes[at]))
    || (exists m :: m in s.soup && m.cfg == d)
  }

  lemma CopyHolds(s: Cluster, q: Dto -> bool, d: Dto)
    requires EveryDto(s, q) && IsCopy(s, d)
    ensures q(d)
  {
    if at :| at in s.nodes && d in NodeDtos(s.nodes[at]) {
      assert NodeDtosAll(s.nodes[at], q);
    }
  }

  /** Config agreement: with one writer, two copies of the same version are the same, wherever they are,
      and none is newer than the writer's own while the writer runs. */
  lemma ConfigAgreement(run: Run, w: NodeId, first: Dto, i: nat, d: Dto, e: Dto)
    requires ValidRun(run) && OneWriter(run, w, first) && i < |run.states|
    requires IsCopy(run.states[i], d) && IsCopy(run.states[i], e)
    ensures d.version == e.version ==> d == e
    ensures Runs(run.states[i], w) ==> d.version <= run.states[i].nodes[w.ep].cfg.version
  {
    var h := History(run, w, first, i);
    CopyHolds(run.states[i], InHistory(h), d);
    CopyHolds(run.states[i], InHistory(h), e);
  }

  /** So two live configurations of the same version have the same knobs. */
  lemma LiveConfigsAgree(run: Run, w: NodeId, first: Dto, i: nat, a: Endpoint, b: Endpoint)
    requires ValidRun(run) && OneWriter(run, w, first) && i < |run.states|
    requires a in run.states[i].nodes && b in run.states[i].nodes
    requires run.states[i].nodes[a].cfg.version == run.states[i].nodes[b].cfg.version
    ensures run.states[i].nodes[a].cfg.knobs == run.states[i].nodes[b].cfg.knobs
    ensures run.states[i].nodes[a].timers == run.states[i].nodes[b].timers
  {
    var s := run.states[i];
    assert ToDto(s.nodes[a].cfg) in NodeDtos(s.nodes[a]) && ToDto(s.nodes[b].cfg) in NodeDtos(s.nodes[b]);
    ConfigAgreement(run, w, first, i, ToDto(s.nodes[a].cfg), ToDto(s.nodes[b].cfg));
    RunTuned(run, i);
  }

  /** A node's version never decreases while it runs, with or without a single writer. */
  lemma {:induction false} VersionsGrow(run: Run, i: nat, j: nat, id: NodeId)
    requires ValidRun(run) && i <= j < |run.states| && Runs(run.states[i], id) && Runs(run.states[j], id)
    ensures run.states[i].nodes[id.ep].cfg.version <= run.states[j].nodes[id.ep].cfg.version
    decreases j - i
  {
    if i == j {
    } else {
      RunsBetween(run, i, i + 1, j, id);
      assert Next(run.states[i], run.steps[i], run.states[i + 1]);
      VersionStep(run.states[i], run.steps[i], run.states[i + 1], id.ep);
      VersionsGrow(run, i + 1, j, id);
    }
  }
}
