/** The protocol loops of a node over a run: what each runs with, and whom its ticks therefore contact. */
module Looping {
  import opened Wrappers
  import opened Identity
  import opened Membership
  import opened Settings
  import opened Cluster
  import opened Claims
  import opened Rooting
  import opened Agreement
  import opened Fanout

  // ------------------------------ one node, one step ------------------------------

  /** A node that has not joined runs no loop. */
  ghost predicate Looped(n: Node) {
    Wired(n.loops) && (!n.started ==> n.loops == Loops(None, None, {}))
  }

  /** Exactly one loop is live, and it runs with `c`. */
  ghost predicate RunsWith(l: Loops, c: Config) {
    Live(l) == {NewLoop(c.knobs.mode, c)}
  }

  /** A node finishes joining by starting the loop of the configuration it booted with, not of the one it has
      just adopted; the loop of that one is retired at once, yet neither stopped nor retuned if it is of the
      same kind. So what is live is what was adopted exactly when nothing was. */
  lemma StartsStaleLoop(n: Node, d: Dto, reply: seq<Entry>, now: int)
    requires !n.started && Looped(n) && ValidKnobs(n.booted.knobs) && n.cfg == n.booted
    ensures var w := Welcomed(n, d, reply, now);
      && w.cfg == Adopted(n.cfg, d) && w.booted == n.booted && w.started && Looped(w)
      && RunsWith(w.loops, n.booted)
      && w.loops.retired == (if Accepts(n.cfg, d) then {NewLoop(w.cfg.knobs.mode, w.cfg)} else {})
      && (RunsWith(w.loops, w.cfg) <==> !Accepts(n.cfg, d))
  {
    var next := Adopted(n.cfg, d);
    if Accepts(n.cfg, d) {
      RuntimeIsCurrent(n.loops, n.cfg, next);
      StartIsCurrent(ApplyRuntime(n.loops, n.cfg, next), n.booted);
      assert NewLoop(next.knobs.mode, next).cfg.version > NewLoop(n.booted.knobs.mode, n.booted).cfg.version;
    } else {
      StartIsCurrent(n.loops, n.booted);
    }
  }

  /** Concretely: booted with a ping fan-out of one, adopting three, the live loop pings one of four peers,
      while the retired loop goes on pinging three. */
  lemma StaleFanout(n: Node, d: Dto, reply: seq<Entry>, now: int)
    requires !n.started && Looped(n) && ValidKnobs(n.booted.knobs) && n.cfg == n.booted && Accepts(n.cfg, d)
    requires n.booted.knobs.mode == PINGACK && n.booted.knobs.pingFanout == 1 && d.mode == PINGACK && d.pingFanout == 3
    ensures var w := Welcomed(n, d, reply, now);
      && w.cfg.knobs.pingFanout == 3
      && Live(w.loops) != {} && w.loops.retired != {}
      && (forall l, targets, peers, perm |
            l in Live(w.loops) && |peers| == 4 && Drawn(targets, peers, perm, FanoutOf(l)) :: |targets| == 1)
      && (forall l, targets, peers, perm |
            l in w.loops.retired && |peers| == 4 && Drawn(targets, peers, perm, FanoutOf(l)) :: |targets| == 3)
  {
    StartsStaleLoop(n, d, reply, now);
    assert NewLoop(PINGACK, n.booted) in Live(Welcomed(n, d, reply, now).loops);
  }

  /** The node has changed its configuration. If that keeps the mode, and the live loop is of that mode, the loop
      lives on and none is retired; otherwise whatever was live is. */
  ghost predicate Retires(n: Node, n': Node) {
    n'.loops.retired ==
      if n'.cfg.knobs.mode == n.cfg.knobs.mode && exists o :: o in Live(n.loops) && o.mode == n.cfg.knobs.mode
      then n.loops.retired else n.loops.retired + Live(n.loops)
  }

  lemma ConfiguredLoops(n: Node, d: Dto)
    requires Looped(n) && n.started && ValidKnobs(n.cfg.knobs)
    ensures var c := Configured(n, d);
      && Looped(c) && c.started && c.booted == n.booted
      && (Accepts(n.cfg, d) ==>
            && c.cfg.version > n.cfg.version && RunsWith(c.loops, c.cfg)
            && Retires(n, c))
      && (!Accepts(n.cfg, d) ==> c.cfg == n.cfg && c.loops == n.loops)
  {
    if Accepts(n.cfg, d) {
      RuntimeIsCurrent(n.loops, n.cfg, Adopted(n.cfg, d));
    }
  }

  /** What one step does to the loops of a node: nothing, or it retunes the live one to a configuration just
      adopted, or it starts the first one. */
  ghost predicate LoopsStep(n: Node, n': Node) {
    && n'.booted == n.booted && Looped(n')
    && (forall l | l in AllLoops(n'.loops) :: l in AllLoops(n.loops) || l.cfg == n'.cfg || l.cfg == n.booted)
    && (n.started ==>
          && n'.started
          && ((n'.cfg == n.cfg && n'.loops == n.loops)
              || (n'.cfg.version > n.cfg.version && RunsWith(n'.loops, n'.cfg) && Retires(n, n'))))
    && (!n.started && n'.started ==> RunsWith(n'.loops, n'.booted))
    && (!n'.started ==> n'.cfg == n.cfg)
  }

  lemma ConfiguredLoopsStep(n: Node, d: Dto)
    requires Looped(n) && n.started && ValidKnobs(n.cfg.knobs)
    ensures LoopsStep(n, Configured(n, d))
  {
    ConfiguredLoops(n, d);
  }

  lemma WelcomedLoopsStep(n: Node, d: Dto, reply: seq<Entry>, now: int)
    requires Looped(n) && !n.started && ValidKnobs(n.booted.knobs) && n.cfg == n.booted
    ensures LoopsStep(n, Welcomed(n, d, reply, now))
  {
    StartsStaleLoop(n, d, reply, now);
  }

  lemma NodeLoopsStep(s: Cluster, step: Step, s': Cluster, at: Endpoint)
    requires Next(s, step, s') && at in s.nodes && at in s'.nodes && Looped(s.nodes[at]) && Tuned(s.nodes[at])
    requires !s.nodes[at].started ==> s.nodes[at].cfg == s.nodes[at].booted
    ensures LoopsStep(s.nodes[at], s'.nodes[at])
  {
    hide Wired, RunsWith, Refresh, Merge, Listing, ApplyRuntime, StartProtocol;
    var n := s.nodes[at];
    match step
    case Receive(a, m, _) => if a == at { ConfiguredLoopsStep(n, m.cfg); }
    case Admin(a, dto) => if a == at { ConfiguredLoopsStep(n, Renumbered(n.cfg, dto)); }
    case Join(a, via, ask, reply, answered) =>
      if a == at && answered {
        WelcomedLoopsStep(n, ToDto(Greeted(s.nodes[via], ask, s.clock).cfg), reply, s.clock);
      }
    case _ =>
  }

  lemma BootLoops(id: NodeId, cfg: Config, now: int)
    requires ValidKnobs(cfg.knobs)
    ensures var n := BootNode(id, cfg, now);
      Looped(n) && n.cfg == cfg && n.booted == cfg && (n.started ==> RunsWith(n.loops, cfg))
      && forall l | l in AllLoops(n.loops) :: l.cfg == cfg
  {
    StartIsCurrent(Loops(None, None, {}), cfg);
  }

  // ------------------------------------ over runs ------------------------------------

  /** The boot `id` has held the configuration `c` by state `i`: it booted with it, or has adopted it since. */
  ghost predicate HasHeld(run: Run, i: nat, id: NodeId, c: Config)
    requires i < |run.states|
  {
    exists j :: 0 <= j <= i && Runs(run.states[j], id) && run.states[j].nodes[id.ep].cfg == c
  }

  ghost predicate LoopsHeld(run: Run, i: nat, at: Endpoint)
    requires i < |run.states| && at in run.states[i].nodes
  {
    var n := run.states[i].nodes[at];
    && Looped(n) && (!n.started ==> n.cfg == n.booted)
    && HasHeld(run, i, n.store.self, n.cfg) && HasHeld(run, i, n.store.self, n.booted)
    && forall l | l in AllLoops(n.loops) :: HasHeld(run, i, n.store.self, l.cfg)
  }

  lemma HasHeldOn(run: Run, i: nat, id: NodeId, c: Config)
    requires i + 1 < |run.states| && HasHeld(run, i, id, c)
    ensures HasHeld(run, i + 1, id, c)
  {
    var j :| 0 <= j <= i && Runs(run.states[j], id) && run.states[j].nodes[id.ep].cfg == c;
    assert 0 <= j <= i + 1 && Runs(run.states[j], id);
  }

  lemma HasHeldNow(run: Run, i: nat, id: NodeId)
    requires i < |run.states| && Runs(run.states[i], id)
    ensures HasHeld(run, i, id, run.states[i].nodes[id.ep].cfg)
  {
  }

  lemma LoopsHeldOn(run: Run, i: nat, at: Endpoint)
    requires ValidRun(run) && i < |run.steps| && at in run.states[i].nodes && at in run.states[i + 1].nodes
    requires LoopsHeld(run, i, at)
    ensures LoopsHeld(run, i + 1, at)
  {
    hide Next, HasHeld, Tuned, Base;
    var (s, step, s') := (run.states[i], run.steps[i], run.states[i + 1]);
    var (n, n') := (s.nodes[at], s'.nodes[at]);
    assert Next(s, step, s');
    RunTuned(run, i);
    RunBase(run, i);
    RunRooted(run, i, at);
    StepRooted(s, step, s', at);
    NodeLoopsStep(s, step, s', at);
    var id := n.store.self;
    HasHeldNow(run, i + 1, id);
    HasHeldOn(run, i, id, n.booted);
    forall l | l in AllLoops(n'.loops) ensures HasHeld(run, i + 1, id, l.cfg) {
      if l in AllLoops(n.loops) {
        HasHeldOn(run, i, id, l.cfg);
      }
    }
  }

  lemma LoopsHeldBoot(run: Run, i: nat, at: Endpoint)
    requires ValidRun(run) && i < |run.steps| && at !in run.states[i].nodes && at in run.states[i + 1].nodes
    ensures LoopsHeld(run, i + 1, at)
  {
    hide HasHeld;
    var (s, step, s') := (run.states[i], run.steps[i], run.states[i + 1]);
    assert Next(s, step, s');
    BootRooted(s, step, s', at);
    BootLoops(step.id, step.cfg, s.clock);
    HasHeldNow(run, i + 1, s'.nodes[at].store.self);
  }

  /** Every loop of a node, live or retired, runs with a configuration that this boot has held. */
  lemma {:induction false} RunLoops(run: Run, i: nat, at: Endpoint)
    requires ValidRun(run) && i < |run.states| && at in run.states[i].nodes
    ensures LoopsHeld(run, i, at)
  {
    hide Next, LoopsHeld;
    if i == 0 {
    } else {
      if at in run.states[i - 1].nodes {
        RunLoops(run, i - 1, at);
        LoopsHeldOn(run, i - 1, at);
      } else {
        LoopsHeldBoot(run, i - 1, at);
      }
    }
  }

  lemma HeldIsValid(run: Run, i: nat, id: NodeId, c: Config)
    requires ValidRun(run) && i < |run.states| && HasHeld(run, i, id, c)
    ensures ValidKnobs(c.knobs)
  {
    var j :| 0 <= j <= i && Runs(run.states[j], id) && run.states[j].nodes[id.ep].cfg == c;
    RunTuned(run, j);
  }

  /** Fan-out in every reachable state: whatever order the snapshot has and whatever permutation is drawn, a
      tick of any loop of a running node reaches exactly as many distinct other members as that loop's own
      fan-out says, or all of them if they are fewer; and that fan-out is positive, and comes from a
      configuration that the node booted with or has adopted, the one it puts on the messages of the tick. */
  lemma FanoutReachesPeers(
    run: Run, i: nat, at: Endpoint, loop: Loop, list: seq<Entry>, perm: seq<nat>, targets: seq<string>)
    requires ValidRun(run) && i < |run.states| && at in run.states[i].nodes
    requires loop in AllLoops(run.states[i].nodes[at].loops)
    requires var n := Snapped(run.states[i].nodes[at], run.states[i].clock);
      Listing(list, n.store.table) && Drawn(targets, Texts(PeerRows(list, n.store.self)), perm, FanoutOf(loop))
    ensures var n := Snapped(run.states[i].nodes[at], run.states[i].clock);
      var own := if loop.mode == GOSSIP then loop.cfg.knobs.gossipFanout else loop.cfg.knobs.pingFanout;
      own > 0 && |n.store.table| > 0 && GoodTargets(targets, n.store.table, n.store.self, own)
    ensures HasHeld(run, i, run.states[i].nodes[at].store.self, loop.cfg) && loop == NewLoop(loop.cfg.knobs.mode, loop.cfg)
  {
    hide Next, HasHeld, Texts, PeerRows, GoodTargets;
    RunRooted(run, i, at);
    RunLoops(run, i, at);
    HeldIsValid(run, i, run.states[i].nodes[at].store.self, loop.cfg);
    SnappedRooted(run.states[i].nodes[at], run.states[i].clock);
    var n := Snapped(run.states[i].nodes[at], run.states[i].clock);
    TargetsAreGood(list, n.store.table, n.store.self, perm, FanoutOf(loop), targets);
  }

  // ------------------------- which configuration the live loop runs with -------------------------

  /** In state `j` the boot `id` has just started its protocol. */
  ghost predicate Starts(run: Run, j: nat, id: NodeId)
    requires j < |run.states|
  {
    && Runs(run.states[j], id) && run.states[j].nodes[id.ep].started
    && (j > 0 && Runs(run.states[j - 1], id) ==> !run.states[j - 1].nodes[id.ep].started)
  }

  lemma LiveAtStart(run: Run, j: nat, id: NodeId)
    requires ValidRun(run) && j < |run.states| && Starts(run, j, id)
    ensures RunsWith(run.states[j].nodes[id.ep].loops, run.states[j].nodes[id.ep].booted)
  {
    assert j > 0;
    var (s, step, s') := (run.states[j - 1], run.steps[j - 1], run.states[j]);
    assert Next(s, step, s');
    if Runs(s, id) {
      RunLoops(run, j - 1, id.ep);
      RunTuned(run, j - 1);
      NodeLoopsStep(s, step, s', id.ep);
    } else {
      RunBase(run, j - 1);
      StartsByBooting(s, step, s', id);
      BootLoops(id, step.cfg, s.clock);
    }
  }

  /** The configuration that a node, started in state `j`, runs its live loop with in state `i`: its own, if it
      has changed since, and otherwise the one it booted with. */
  ghost function LiveConfigOf(run: Run, j: nat, i: nat, id: NodeId): Config
    requires j <= i < |run.states| && Runs(run.states[j], id) && Runs(run.states[i], id)
  {
    var (n, m) := (run.states[j].nodes[id.ep], run.states[i].nodes[id.ep]);
    if m.cfg == n.cfg then m.booted else m.cfg
  }

  /** A started node has exactly one live loop, and it runs with exactly that configuration. */
  lemma {:induction false} LiveLoop(run: Run, j: nat, i: nat, id: NodeId)
    requires ValidRun(run) && j <= i < |run.states| && Starts(run, j, id) && Runs(run.states[i], id)
    ensures run.states[i].nodes[id.ep].started && run.states[i].nodes[id.ep].booted == run.states[j].nodes[id.ep].booted
    ensures RunsWith(run.states[i].nodes[id.ep].loops, LiveConfigOf(run, j, i, id))
    decreases i - j
  {
    hide Next, RunsWith;
    if i == j {
      LiveAtStart(run, j, id);
    } else {
      RunsBetween(run, j, i - 1, i, id);
      LiveLoop(run, j, i - 1, id);
      assert Next(run.states[i - 1], run.steps[i - 1], run.states[i]);
      RunLoops(run, i - 1, id.ep);
      RunTuned(run, i - 1);
      NodeLoopsStep(run.states[i - 1], run.steps[i - 1], run.states[i], id.ep);
      VersionsGrow(run, j, i - 1, id);
    }
  }

  /** So the live loop contacts as many peers as the live configuration says exactly when a change has been
      accepted since the start, or the configuration adopted on joining agrees with the booted one there. */
  lemma LiveFanout(run: Run, j: nat, i: nat, id: NodeId, l: Loop)
    requires ValidRun(run) && j <= i < |run.states| && Starts(run, j, id) && Runs(run.states[i], id)
    requires l in Live(run.states[i].nodes[id.ep].loops)
    ensures var (n, m) := (run.states[j].nodes[id.ep], run.states[i].nodes[id.ep]);
      FanoutOf(l) == FanoutOf(NewLoop(m.cfg.knobs.mode, m.cfg))
      <==> m.cfg != n.cfg || FanoutOf(NewLoop(n.booted.knobs.mode, n.booted)) == FanoutOf(NewLoop(n.cfg.knobs.mode, n.cfg))
  {
    LiveLoop(run, j, i, id);
  }

  /** A change of configuration at a started node, exactly. If it keeps the mode, and the live loop is of that
      mode, the loop lives on with the new configuration and none is retired; otherwise that loop is retired,
      with what it ran with until then. */
  lemma ChangeRetires(run: Run, j: nat, i: nat, id: NodeId)
    requires ValidRun(run) && j <= i < |run.steps| && Starts(run, j, id)
    requires Runs(run.states[i], id) && Runs(run.states[i + 1], id)
    requires run.states[i + 1].nodes[id.ep].cfg != run.states[i].nodes[id.ep].cfg
    ensures var (n, n', live) :=
        (run.states[i].nodes[id.ep], run.states[i + 1].nodes[id.ep], LiveConfigOf(run, j, i, id));
      && Live(n'.loops) == {NewLoop(n'.cfg.knobs.mode, n'.cfg)}
      && n'.loops.retired ==
        if n'.cfg.knobs.mode == n.cfg.knobs.mode == live.knobs.mode then n.loops.retired
        else n.loops.retired + {NewLoop(live.knobs.mode, live)}
  {
    assert Next(run.states[i], run.steps[i], run.states[i + 1]);
    LiveLoop(run, j, i, id);
    RunLoops(run, i, id.ep);
    RunTuned(run, i);
    hide Next, Tuned;
    var (n, live) := (run.states[i].nodes[id.ep], LiveConfigOf(run, j, i, id));
    NodeLoopsStep(run.states[i], run.steps[i], run.states[i + 1], id.ep);
    assert forall o :: o in Live(n.loops) <==> o == NewLoop(live.knobs.mode, live);
  }

  // ------------------------------------ what is sent ------------------------------------

  lemma CopyIsHeld(run: Run, i: nat, at: Endpoint, mode: string, d: Dto)
    requires ValidRun(run) && i < |run.states| && at in run.states[i].nodes
    requires d in Copies(run.states[i].nodes[at].loops, mode)
    ensures exists c ::
      HasHeld(run, i, run.states[i].nodes[at].store.self, c) && c.knobs.mode == mode && ToDto(c) == d
  {
    RunLoops(run, i, at);
    var n := run.states[i].nodes[at];
    var l :| l in AllLoops(n.loops) && l.mode == mode && l.copy == d;
    assert l == NewLoop(l.cfg.knobs.mode, l.cfg) && HasHeld(run, i, n.store.self, l.cfg);
  }

  /** A ping or gossip message lists every row of its sender's table once, the own row stamped with the time
      unless it is Left, and carries a configuration of that protocol which the sender has held. */
  lemma SentMessages(run: Run, i: nat)
    requires ValidRun(run) && i < |run.steps| && run.steps[i].Send? && run.steps[i].at in run.states[i].nodes
    ensures var (s, at, m) := (run.states[i], run.steps[i].at, run.steps[i].m);
      var t := s.nodes[at].store.table;
      && at in t && |m.list| == |t| && !m.kind.Ack?
      && (forall k | k in t && k != at :: t[k] in m.list)
      && (if t[at].state == Left then t[at] else t[at].(last := s.clock)) in m.list
      && exists c :: HasHeld(run, i, s.nodes[at].store.self, c) && ToDto(c) == m.cfg
                     && c.knobs.mode == if m.kind.Ping? then PINGACK else GOSSIP
  {
    hide HasHeld, Copies;
    var (s, at, m) := (run.states[i], run.steps[i].at, run.steps[i].m);
    assert Next(s, run.steps[i], run.states[i + 1]);
    RunRooted(run, i, at);
    var n := Snapped(s.nodes[at], s.clock);
    SnappedRooted(s.nodes[at], s.clock);
    ListingSize(m.list, n.store.table);
    assert n.store.table.Keys == s.nodes[at].store.table.Keys;
    KeysSize(n.store.table, s.nodes[at].store.table);
    assert forall k | k in n.store.table :: n.store.table[k] in m.list;
    CopyIsHeld(run, i, at, if m.kind.Ping? then PINGACK else GOSSIP, m.cfg);
  }

  lemma KeysSize(t: Table, u: Table)
    requires t.Keys == u.Keys
    ensures |t| == |u|
  {
    assert |t.Keys| == |t| && |u.Keys| == |u|;
  }
}
