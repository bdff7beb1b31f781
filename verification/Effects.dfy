/** What each step does, said over the states before and after it alone. */
module Effects {
  import opened Identity
  import opened Membership
  import MergeLaws
  import opened Scanner
  import opened Settings
  import opened Cluster
  import opened Claims
  import opened Rooting
  import opened Agreement
  import opened Timing
  import opened Joining

  // ---------------------------------- booting ----------------------------------

  /** A process starts with its own row and nothing else, under the configuration it was given; an introducer
      serves at once, with the loop of that configuration, any other only once it has joined. */
  lemma BootEffect(s: Cluster, step: Step, s': Cluster)
    requires step.Boot? && Next(s, step, s')
    ensures var Boot(id, cfg) := step;
      && s' == s.(boots := s.boots[id.ep := id.ts], nodes := s'.nodes)
      && id.ep !in s.nodes && s'.nodes == s.nodes[id.ep := s'.nodes[id.ep]]
      && var n := s'.nodes[id.ep];
         && n.store == Replica(id, map[id.ep := Entry(id, 100, Alive, s.clock)], 1, cfg.knobs.tSuspect)
         && n.cfg == cfg && n.booted == cfg && n.timers == Timers(cfg.knobs.tSuspect, cfg.knobs.tFail, cfg.knobs.tCleanup)
         && n.work == Idle && n.started == cfg.bootstrap.isIntroducer && n.loops.retired == {}
         && Live(n.loops) == if cfg.bootstrap.isIntroducer then {Loop(cfg.knobs.mode, cfg, ToDto(cfg))} else {}
  {
  }

  // ------------------------------ configurations are adopted ------------------------------

  /** The node runs with the knobs of `d`, under the given version. */
  ghost predicate RunsOn(n: Node, n': Node, d: Dto, version: int) {
    && n'.cfg.version == version && Carries(d, n'.cfg.knobs) && n'.cfg.bootstrap == n.cfg.bootstrap
    && d.tSuspect == Nanos(n'.timers.suspect) && d.tFail == Nanos(n'.timers.fail) && d.tCleanup == Nanos(n'.timers.cleanup)
    && n'.store.tSuspect == n'.timers.suspect
  }

  ghost predicate SameConfig(n: Node, n': Node) {
    n'.cfg == n.cfg && n'.timers == n.timers && n'.store.tSuspect == n.store.tSuspect
  }

  /** A copy offered by the network is taken up exactly if it is well formed and strictly newer. */
  ghost predicate TakesUp(n: Node, n': Node, d: Dto) {
    if WellFormed(d) && d.version > n.cfg.version then RunsOn(n, n', d, d.version) else SameConfig(n, n')
  }

  /** Every message a node receives offers it a configuration, and is answered so even by a node that has left. */
  lemma ReceiveTakesUp(s: Cluster, step: Step, s': Cluster)
    requires step.Receive? && Next(s, step, s')
    ensures step.at in s.nodes && step.at in s'.nodes && TakesUp(s.nodes[step.at], s'.nodes[step.at], step.m.cfg)
  {
    hide ApplyRuntime, Answers;
    var c := Configured(s.nodes[step.at], step.m.cfg);
    MergeKeeps(Refresh(c.store, s.clock), step.m.list, s.clock);
  }

  /** An answered join offers the joiner the introducer's configuration; nothing offers the introducer one. */
  lemma JoinTakesUp(s: Cluster, step: Step, s': Cluster)
    requires step.Join? && Next(s, step, s')
    ensures step.at in s.nodes && step.at in s'.nodes && step.via in s.nodes && step.via in s'.nodes
    ensures SameConfig(s.nodes[step.via], s'.nodes[step.via])
    ensures if step.answered then TakesUp(s.nodes[step.at], s'.nodes[step.at], ToDto(s.nodes[step.via].cfg))
            else SameConfig(s.nodes[step.at], s'.nodes[step.at])
  {
    hide ApplyRuntime, StartProtocol, Listing;
    var (n, via) := (s.nodes[step.at], s.nodes[step.via]);
    MergeKeeps(via.store, step.ask, s.clock);
    MergeKeeps(Configured(Snapped(n, s.clock), ToDto(via.cfg)).store, step.reply, s.clock);
  }

  /** An administrator's change is taken up exactly if it is well formed, under its own version if that is newer
      and under the next one if not. */
  lemma AdminTakesUp(s: Cluster, step: Step, s': Cluster)
    requires step.Admin? && Next(s, step, s')
    ensures step.at in s.nodes && step.at in s'.nodes
    ensures var (n, n', d) := (s.nodes[step.at], s'.nodes[step.at], step.dto);
      if WellFormed(d) then RunsOn(n, n', d, if d.version > n.cfg.version then d.version else n.cfg.version + 1)
      else SameConfig(n, n')
  {
    hide ApplyRuntime;
  }

  /** So a node that has received a well-formed copy is never behind it again while it runs. */
  lemma NeverBehind(run: Run, i: nat, j: nat, id: NodeId)
    requires ValidRun(run) && i < j < |run.states| && run.steps[i].Receive? && run.steps[i].at == id.ep
    requires Runs(run.states[i], id) && Runs(run.states[j], id) && WellFormed(run.steps[i].m.cfg)
    ensures run.states[j].nodes[id.ep].cfg.version >= run.steps[i].m.cfg.version
  {
    assert Next(run.states[i], run.steps[i], run.states[i + 1]);
    ReceiveTakesUp(run.states[i], run.steps[i], run.states[i + 1]);
    RunsBetween(run, i, i + 1, j, id);
    VersionsGrow(run, i + 1, j, id);
  }

  // ---------------------------------- what is heard ----------------------------------

  /** A node that has left hears nothing. Any other knows, after a message, the boot of every row in it or a newer
      one; and it answers only pings, naming the ping, with rows it holds by then. */
  lemma ReceiveHears(s: Cluster, step: Step, s': Cluster)
    requires step.Receive? && Next(s, step, s')
    ensures step.at in s.nodes && step.at in s'.nodes
    ensures HasLeft(s.nodes[step.at].store) ==>
      s'.nodes[step.at].store.table == s.nodes[step.at].store.table && step.ack.None?
    ensures !HasLeft(s.nodes[step.at].store) ==>
      forall e | e in step.m.list :: KnowsOf(s'.nodes[step.at].store.table, e.id)
    ensures step.ack.Some? ==>
      step.m.kind.Ping? && step.ack.value.nonce == step.m.nonce && Listing(step.ack.value.list, s'.nodes[step.at].store.table)
  {
    hide ApplyRuntime, Copies;
    var c := Configured(s.nodes[step.at], step.m.cfg);
    if !HasLeft(c.store) {
      var r := Refresh(c.store, s.clock);
      forall e | e in step.m.list ensures KnowsOf(s'.nodes[step.at].store.table, e.id) {
        MergeLearns(r, step.m.list, s.clock, e.id);
      }
    }
  }

  /** The row of a rebooted node is safe from scans until a timeout after it was heard of. */
  lemma RebootSpared(r: Replica, e: Entry, now: int, self: NodeId, tick: int, t: Timers)
    requires e.id.ep in r.table && e.id.ts > r.table[e.id.ep].id.ts && ValidTimers(t)
    requires tick < now + if t.suspect != 0 then t.suspect else t.fail
    ensures e.id.ep in Merge(r, [e], now).table
    ensures !Judge(Merge(r, [e], now).table[e.id.ep], self, tick, t).Mark?
  {
    MergeLaws.NewerBootRestamped(r, e, now);
  }

  // ---------------------------------- leaving ----------------------------------

  /** A request to leave, whether or not the node has left already: the own row moves to the next incarnation,
      Left, stamped with the time, and nothing else changes. */
  lemma LeaveEffect(run: Run, i: nat)
    requires ValidRun(run) && i < |run.steps| && run.steps[i].Leave?
    ensures var (s, s', at) := (run.states[i], run.states[i + 1], run.steps[i].at);
      && at in s.nodes && at in s.nodes[at].store.table
      && var (n, id) := (s.nodes[at], s.nodes[at].store.self);
         var row := Entry(id, n.store.table[at].inc + 1, Left, s.clock);
         && s' == s.(nodes := s.nodes[at := s'.nodes[at]])
         && s'.nodes[at] == n.(store := n.store.(table := n.store.table[at := row], version := n.store.version + 1))
  {
    var (s, s', at) := (run.states[i], run.states[i + 1], run.steps[i].at);
    assert Next(s, run.steps[i], s');
    RunRooted(run, i, at);
    var n := s.nodes[at];
    var own := n.store.table[at];
    assert Refresh(n.store, s.clock).table[at := Entry(own.id, own.inc + 1, Left, s.clock)]
        == n.store.table[at := Entry(own.id, own.inc + 1, Left, s.clock)];
  }

  /** A scan at a node that has left ends it if the leave is old enough, and does nothing at all if not; a node that
      has not left survives its scans. */
  lemma ScanEnds(run: Run, i: nat)
    requires ValidRun(run) && i < |run.steps| && run.steps[i].Scan?
    ensures var (s, s', at, tick) := (run.states[i], run.states[i + 1], run.steps[i].at, run.steps[i].tick);
      && at in s.nodes && at in s.nodes[at].store.table
      && var (n, own) := (s.nodes[at], s.nodes[at].store.table[at]);
         && (own.state == Left ==> (at !in s'.nodes <==> tick >= own.last + n.timers.cleanup))
         && (own.state == Left && at in s'.nodes ==> s' == s)
         && (own.state != Left ==> at in s'.nodes)
  {
    var (s, s', at) := (run.states[i], run.states[i + 1], run.steps[i].at);
    assert Next(s, run.steps[i], s');
    RunRooted(run, i, at);
    var n := s.nodes[at];
    if Own(n).state == Left {
      assert Refresh(n.store, s.clock) == n.store;
      assert Put(s, at, n) == s;
    }
  }

  lemma ItemSparesOwn(s: Cluster, step: Step, s': Cluster)
    requires step.ScanItem? && Next(s, step, s') && RootedAt(s, step.at)
    ensures step.at in s'.nodes && Get(s'.nodes[step.at].store.table, step.at) == Get(s.nodes[step.at].store.table, step.at)
  {
    ItemEffect(s, step, s', step.at);
    assert Item(s, step) in Todo(s.nodes[step.at].work);
  }

  lemma GreetingSparesOwn(s: Cluster, step: Step, s': Cluster)
    requires Base(s) && step.Join? && Next(s, step, s')
    ensures step.via in s.nodes && step.via in s'.nodes
    ensures HasLeft(s.nodes[step.via].store) ==>
      Get(s'.nodes[step.via].store.table, step.via) == Get(s.nodes[step.via].store.table, step.via)
  {
    hide EveryClaim, Listing;
    JoinSites(s, step, s');
    BaseNode(s, step.at);
    BaseNode(s, step.via);
    AsksWithOwnRow(s.nodes[step.at], step.ask, s.clock);
    MergeElsewhere(s.nodes[step.via].store, step.ask, s.clock, step.via);
    MergeKeeps(s.nodes[step.via].store, step.ask, s.clock);
  }

  /** Once Left, a node's own row stands until the next request to leave. */
  lemma LeftStands(s: Cluster, step: Step, s': Cluster, at: Endpoint)
    requires Base(s) && Next(s, step, s') && at in s.nodes && at in s'.nodes && step != Leave(at)
    requires HasLeft(s.nodes[at].store) && s.nodes[at].store.self.ep == at
    ensures Get(s'.nodes[at].store.table, at) == Get(s.nodes[at].store.table, at)
  {
    hide EveryClaim, Listing, ApplyRuntime, Answers;
    BaseNode(s, at);
    if at !in Actors(step) {
      BystanderOwn(s, step, s', at);
    } else if step.Join? {
      JoinSites(s, step, s');
      GreetingSparesOwn(s, step, s');
    } else if step.ScanItem? {
      ItemSparesOwn(s, step, s');
    }
  }

  /** `id` is asked to leave in step `i`, and not again before step `j`. */
  ghost predicate LastAskedAt(run: Run, i: nat, j: nat, id: NodeId) {
    && ValidRun(run) && i < j < |run.states|
    && run.steps[i] == Leave(id.ep) && Runs(run.states[i], id)
    && forall m | i < m < j :: run.steps[m] != Leave(id.ep)
  }

  lemma {:induction false} LeftSince(run: Run, i: nat, j: nat, id: NodeId)
    requires LastAskedAt(run, i, j, id) && Runs(run.states[j], id)
    ensures HasLeft(run.states[j].nodes[id.ep].store)
    ensures run.states[j].nodes[id.ep].store.table[id.ep].last == run.states[i].clock
    decreases j - i
  {
    hide Next;
    if i + 1 == j {
      RunRooted(run, i, id.ep);
      LeaveEffect(run, i);
    } else {
      RunsBetween(run, i, j - 1, j, id);
      LeftSince(run, i, j - 1, id);
      RunBase(run, j - 1);
      assert Next(run.states[j - 1], run.steps[j - 1], run.states[j]);
      LeftStands(run.states[j - 1], run.steps[j - 1], run.states[j], id.ep);
    }
  }

  /** A boot that was last asked to leave at some time is ended by its own scans exactly from the cleanup time
      after that on. */
  lemma GoneAfterCleanup(run: Run, i: nat, j: nat, id: NodeId)
    requires LastAskedAt(run, i, j, id) && Runs(run.states[j], id)
    requires j < |run.steps| && run.steps[j].Scan? && run.steps[j].at == id.ep
    ensures id.ep !in run.states[j + 1].nodes
      <==> run.steps[j].tick >= run.states[i].clock + run.states[j].nodes[id.ep].timers.cleanup
  {
    LeftSince(run, i, j, id);
    ScanEnds(run, j);
  }

  // ---------------------------------- scanning ----------------------------------

  /** What a scan makes of a peer's row that has not expired: with suspicion on, it suspects exactly the Alive rows
      between the two timeouts, and fails exactly the Alive and Suspect ones past both; with suspicion off, it fails
      every row past the one timeout; and it changes nothing else about a row. */
  lemma ScanMarks(run: Run, i: nat, x: Endpoint)
    requires ValidRun(run) && i < |run.steps| && run.steps[i].Scan? && x != run.steps[i].at
    requires run.steps[i].at in run.states[i].nodes && !HasLeft(run.states[i].nodes[run.steps[i].at].store)
    requires var n := run.states[i].nodes[run.steps[i].at];
      x in n.store.table && !Expired(n.store.table[x], run.steps[i].tick, n.timers)
    ensures var (n, t) := (run.states[i].nodes[run.steps[i].at], run.states[i].nodes[run.steps[i].at].timers);
      var (e, age) := (n.store.table[x], run.steps[i].tick - n.store.table[x].last);
      && run.steps[i].at in run.states[i + 1].nodes && x in run.states[i + 1].nodes[run.steps[i].at].store.table
      && var z := run.states[i + 1].nodes[run.steps[i].at].store.table[x];
         && z == e.(state := z.state)
         && (t.suspect != 0 && age < t.suspect + t.fail && age >= t.suspect && e.state == Alive ==> z.state == Suspect)
         && (t.suspect != 0 && age >= t.suspect + t.fail && (e.state == Alive || e.state == Suspect) ==> z.state == Failed)
         && (t.suspect == 0 && age >= t.fail ==> z.state == Failed)
         && (z.state != e.state ==>
               if t.suspect == 0 then age >= t.fail
               else (e.state == Alive && age >= t.suspect) || (e.state == Suspect && age >= t.suspect + t.fail))
  {
    var (s, step, s') := (run.states[i], run.steps[i], run.states[i + 1]);
    assert Next(s, step, s');
    RunRooted(run, i, step.at);
    RunTuned(run, i);
    ScannedRow(s, step.at, step.tick, s', x);
  }

  /** Acting on all the items of a scan in progress, one after the other. */
  ghost function ActedOut(n: Node, now: int): Node
    decreases |Todo(n.work)|
  {
    if n.work.Sweeping? && n.work.todo != [] then ActedOut(ItemSwept(n, now), now) else n
  }

  lemma {:induction false} ActedOutSweeps(n: Node, now: int)
    requires n.work.Sweeping? && n.work.todo != []
    ensures ActedOut(n, now)
      == n.(store := SweepItems(n.store, n.work.todo, n.work.tick, n.work.timers, now), work := Idle)
    decreases |Todo(n.work)|
  {
    hide SweepItem;
    var z := ItemSwept(n, now);
    if |n.work.todo| == 1 {
      assert n.work.todo[1..] == [];
      assert SweepItems(z.store, [], n.work.tick, n.work.timers, now) == z.store;
    } else {
      ActedOutSweeps(z, now);
    }
  }

  /** A scan that is split, but undisturbed, leaves the node exactly as a scan in one step would. */
  lemma SplitScanRefines(n: Node, now: int, tick: int, list: seq<Entry>)
    requires Keyed(n.store.table) && n.work.Idle? && !HasLeft(n.store) && Listing(list, Snapped(n, now).store.table)
    ensures ScanOnce(n.store, now, tick, n.timers).Scanned?
    ensures ActedOut(Snapped(n, now).(work := if list == [] then Idle else Sweeping(tick, n.timers, list)), now)
      == n.(store := ScanOnce(n.store, now, tick, n.timers).store)
  {
    hide SweepItem;
    var f := Snapped(n, now);
    ScanLoopRefines(f.store, list, tick, n.timers, now);
    if list == [] {
      assert SweepItems(f.store, [], tick, n.timers, now) == f.store;
    } else {
      ActedOutSweeps(f.(work := Sweeping(tick, n.timers, list)), now);
    }
  }
}
