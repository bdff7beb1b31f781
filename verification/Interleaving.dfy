/** Runs that show what splitting a scan puts at risk: the conditions that the results over runs set on items of
    split scans do fail, in runs whose every message goes from a member to a member its sender knows. */
module Interleaving {
  import opened Wrappers
  import opened Identity
  import opened Membership
  import opened Scanner
  import opened Settings
  import opened Cluster
  import opened Claims
  import opened Overwriting
  import opened SafetyRuns
  import opened Agreement
  import opened Timing
  import opened Departure

  // ------------------------------ runs, step by step ------------------------------

  /** Whoever receives a message is in its list, and so in the table of the sender. */
  ghost predicate Addressed(step: Step) {
    step.Receive? ==> exists e :: e in step.m.list && e.id.ep == step.at
  }

  ghost predicate Actual(run: Run) {
    ValidRun(run) && forall i | 0 <= i < |run.steps| :: Addressed(run.steps[i])
  }

  ghost function Last(run: Run): Cluster
    requires run.states != []
  {
    run.states[|run.states| - 1]
  }

  lemma Starts(s: Cluster) returns (run: Run)
    requires Init(s)
    ensures Actual(run) && run.states == [s] && run.steps == []
  {
    run := Run([s], []);
  }

  /** The run goes on with one more step. */
  lemma GoesOn(run: Run, step: Step, s: Cluster) returns (z: Run)
    requires Actual(run) && Next(Last(run), step, s) && Addressed(step)
    ensures Actual(z) && z.states == run.states + [s] && z.steps == run.steps + [step] && Last(z) == s
  {
    hide Next;
    z := Run(run.states + [s], run.steps + [step]);
    forall i | 0 <= i < |z.steps| ensures Next(z.states[i], z.steps[i], z.states[i + 1]) && Addressed(z.steps[i]) {
      assert i < |run.steps| ==> Next(run.states[i], run.steps[i], run.states[i + 1]);
    }
  }

  function KnobsWith(t: Timers): Knobs {
    Knobs(PINGACK, 1, 1, 1, 1, t.suspect, t.fail, t.cleanup, 0.0)
  }

  function Host(t: Timers): Config {
    Config(1, KnobsWith(t), Bootstrap("", "", "", "", true, ""))
  }

  function Guest(t: Timers): Config {
    Config(1, KnobsWith(t), Bootstrap("", "", "", "", false, ""))
  }

  /** A node that serves, with the configuration it booted with. */
  function Serving(id: NodeId, c: Config, table: Table, version: nat, work: Work): Node {
    Node(Replica(id, table, version, c.knobs.tSuspect), TimersOf(c), c, c, StartProtocol(Loops(None, None, {}), c), true, work)
  }

  function Telling(c: Config, list: seq<Entry>): Message {
    Message(Ping, 0, list, ToDto(c))
  }

  lemma BootsHost(s: Cluster, id: NodeId, t: Timers)
    requires id.ep !in s.nodes && (id.ep in s.boots ==> id.ts > s.boots[id.ep]) && ValidTimers(t)
    ensures Next(s, Boot(id, Host(t)),
      s.(boots := s.boots[id.ep := id.ts],
         nodes := s.nodes[id.ep := Serving(id, Host(t), map[id.ep := Entry(id, 100, Alive, s.clock)], 1, Idle)]))
  {
  }

  lemma BootsGuest(s: Cluster, id: NodeId, t: Timers)
    requires id.ep !in s.nodes && (id.ep in s.boots ==> id.ts > s.boots[id.ep]) && ValidTimers(t)
    ensures Next(s, Boot(id, Guest(t)),
      s.(boots := s.boots[id.ep := id.ts], nodes := s.nodes[id.ep := BootNode(id, Guest(t), s.clock)]))
  {
  }

  lemma Waits(s: Cluster, to: int)
    requires to >= s.clock
    ensures Next(s, Advance(to), s.(clock := to))
  {
  }

  lemma Crashes(s: Cluster, at: Endpoint)
    requires at in s.nodes
    ensures Next(s, Crash(at), s.(nodes := s.nodes - {at}))
  {
  }

  /** The introducer's side of a join, for a table that gets along with the newcomer's row. */
  lemma Welcomes(a: NodeId, c: Config, table: Table, version: nat, work: Work, own: Entry, e: Entry, now: int)
    requires a.ep in table && table[a.ep] == own && own.id == a && own.state == Alive && own.last == now
    requires e.id.ep != a.ep && e.last == now && (e.id.ep in table ==> table[e.id.ep].id.ts < e.id.ts)
    ensures Greeted(Serving(a, c, table, version, work), [e], now)
      == Serving(a, c, table[e.id.ep := e], version + 1, work)
  {
    var r := Replica(a, table, version, c.knobs.tSuspect);
    var u := Update(r, e, now);
    assert [e][1..] == [] && Merge(u, [], now) == u;
    assert e.(last := now) == e;
    assert u.table[a.ep := own] == u.table;
  }

  /** The newcomer's side: it learns of the introducer, and its configuration is as new as the introducer's. */
  lemma Enters(b: NodeId, t: Timers, c: Config, e: Entry, host: Entry, now: int)
    requires e == Entry(b, 100, Alive, now) && host.id.ep != b.ep && c.version == 1
    ensures Welcomed(BootNode(b, Guest(t), now), ToDto(c), [e, host], now)
      == Serving(b, Guest(t), map[b.ep := e, host.id.ep := host], 2, Idle)
  {
    var r := BootNode(b, Guest(t), now).store;
    assert r.table == map[b.ep := e] && Refresh(r, now).table == r.table;
    MergeLaws.MergeTwo(r, e, host, now);
    assert Update(r, e, now) == r;
    assert Update(r, host, now).table == map[b.ep := e, host.id.ep := host];
  }

  lemma Joins(s: Cluster, a: NodeId, c: Config, table: Table, version: nat, work: Work, own: Entry, b: NodeId, t: Timers)
    requires a.ep in s.nodes && s.nodes[a.ep] == Serving(a, c, table, version, work)
    requires b.ep in s.nodes && s.nodes[b.ep] == BootNode(b, Guest(t), s.clock) && a.ep != b.ep
    requires c.bootstrap.isIntroducer && c.version == 1
    requires a.ep in table && table[a.ep] == own && own.id == a && own.state == Alive && own.last == s.clock
    requires table.Keys <= {a.ep, b.ep} && (b.ep in table ==> table[b.ep].id.ts < b.ts)
    ensures var e := Entry(b, 100, Alive, s.clock);
      Next(s, Join(b.ep, a.ep, [e], [e, own], true),
        Put(Put(s, a.ep, Serving(a, c, map[a.ep := own, b.ep := e], version + 1, work)),
            b.ep, Serving(b, Guest(t), map[b.ep := e, a.ep := own], 2, Idle)))
  {
    hide StartProtocol, Greeted, Welcomed;
    var e := Entry(b, 100, Alive, s.clock);
    assert table[b.ep := e] == map[a.ep := own, b.ep := e];
    Welcomes(a, c, table, version, work, own, e, s.clock);
    Enters(b, t, c, e, own, s.clock);
    var n := Snapped(s.nodes[b.ep], s.clock);
    assert n.store.table == map[b.ep := e];
    assert Listing([e], n.store.table);
    assert Listing([e, own], map[a.ep := own, b.ep := e]);
  }

  /** A node with a peer, and an own row that needs no stamp, tells what it holds. */
  lemma Tells(s: Cluster, id: NodeId, c: Config, list: seq<Entry>)
    requires id.ep in s.nodes && Listing(list, s.nodes[id.ep].store.table) && (exists e :: e in list && e.id != id)
    requires var n := s.nodes[id.ep];
      && n == Serving(id, c, n.store.table, n.store.version, n.work) && c.knobs.mode == PINGACK
      && id.ep in n.store.table && (n.store.table[id.ep].last == s.clock || n.store.table[id.ep].state == Left)
    ensures Next(s, Send(id.ep, Telling(c, list)), Emit(s, Telling(c, list)))
  {
    var n := s.nodes[id.ep];
    var own := n.store.table[id.ep];
    assert n.store.table[id.ep := own.(last := s.clock)] == n.store.table || own.state == Left;
    assert Snapped(n, s.clock) == n;
    var l := NewLoop(PINGACK, c);
    assert l in AllLoops(n.loops) && l.copy in Copies(n.loops, PINGACK);
    assert Put(s, id.ep, n) == s;
  }

  /** A node that has not left stamps its own row and hears two rows. */
  lemma Hears(s: Cluster, at: Endpoint, from: Config, e: Entry, f: Entry)
    requires at in s.nodes && Telling(from, [e, f]) in s.soup && s.nodes[at].started
    requires from.version <= s.nodes[at].cfg.version && !HasLeft(s.nodes[at].store)
    ensures Next(s, Receive(at, Telling(from, [e, f]), None),
      Put(s, at, s.nodes[at].(store := Update(Update(Refresh(s.nodes[at].store, s.clock), e, s.clock), f, s.clock))))
  {
    MergeLaws.MergeTwo(Refresh(s.nodes[at].store, s.clock), e, f, s.clock);
  }

  /** A scan begins, on a snapshot that stamps the own row. */
  lemma Begins(s: Cluster, id: NodeId, c: Config, table: Table, version: nat, list: seq<Entry>, own: Entry)
    requires id.ep in s.nodes && s.nodes[id.ep] == Serving(id, c, table, version, Idle)
    requires id.ep in table && table[id.ep].id == id && table[id.ep].state != Left
    requires own == table[id.ep].(last := s.clock) && Listing(list, table[id.ep := own]) && list != []
    ensures Next(s, BeginScan(id.ep, s.clock, list),
      Put(s, id.ep, Serving(id, c, table[id.ep := own], version, Sweeping(s.clock, TimersOf(c), list))))
  {
  }

  lemma Leaves(s: Cluster, id: NodeId, c: Config, table: Table, version: nat)
    requires id.ep in s.nodes && s.nodes[id.ep] == Serving(id, c, table, version, Idle)
    requires id.ep in table && table[id.ep].id == id && table[id.ep].state == Alive
    ensures Next(s, Leave(id.ep),
      Put(s, id.ep,
        Serving(id, c, table[id.ep := Entry(id, table[id.ep].inc + 1, Left, s.clock)], version + 1, Idle)))
  {
    var (own, r) := (table[id.ep], Refresh(s.nodes[id.ep].store, s.clock));
    assert r.table == table[id.ep := own.(last := s.clock)];
    assert Apply(r, id, own.inc + 1, Left, s.clock).table == table[id.ep := Entry(id, own.inc + 1, Left, s.clock)];
  }

  /** The item at the head of the scan in progress at `id` marks what the table holds. */
  lemma Acts(s: Cluster, id: NodeId, tick: int, c: Config, table: Table, version: nat,
             e: Entry, rest: seq<Entry>, state: State)
    requires id.ep in s.nodes && s.nodes[id.ep] == Serving(id, c, table, version, Sweeping(tick, TimersOf(c), [e] + rest))
    requires e.id.ep in table && rest != [] && Judge(e, id, tick, TimersOf(c)) == Mark(state)
    requires state == Suspect || state == Failed
    ensures Marks(s, ScanItem(id.ep)) && Item(s, ScanItem(id.ep)) == e && Target(s, ScanItem(id.ep)) == table[e.id.ep]
    ensures ItemVerdict(s, ScanItem(id.ep)) == Mark(state)
    ensures Next(s, ScanItem(id.ep),
      Put(s, id.ep, Serving(id, c, table[e.id.ep := table[e.id.ep].(state := state, inc := e.inc)], version + 1,
                            Sweeping(tick, TimersOf(c), rest))))
  {
    var todo := [e] + rest;
    assert todo[1..] == rest;
  }

  // --------------------- a leave undone and an accusation without evidence ---------------------

  const SLOW := Timers(10, 20, 30)

  /** A run, suspicion on, in which every configuration has the timers above. */
  ghost predicate Tame(run: Run) {
    Actual(run) && SuspicionOn(run) && FixedTimers(run, SLOW)
  }

  /** And no item of a split scan has been acted on yet. */
  ghost predicate Calm(run: Run) {
    Tame(run) && forall i | 0 <= i < |run.steps| :: !run.steps[i].ScanItem?
  }

  lemma CalmStarts(s: Cluster) returns (run: Run)
    requires Init(s)
    ensures Calm(run) && OneBoot(run) && run.states == [s] && run.steps == []
  {
    run := Starts(s);
  }

  lemma GoesTame(run: Run, step: Step, s: Cluster) returns (z: Run)
    requires Tame(run) && Next(Last(run), step, s) && Addressed(step) && !step.Admin?
    requires step.Boot? ==> step.cfg.knobs == KnobsWith(SLOW)
    ensures Tame(z) && z.states == run.states + [s] && z.steps == run.steps + [step] && Last(z) == s
    ensures OneBoot(run) && (step.Boot? ==> step.id.ep !in Last(run).boots) ==> OneBoot(z)
  {
    hide Next, Addressed;
    z := GoesOn(run, step, s);
    forall j, d | 0 <= j < |z.steps| && Writes(z.states[j], z.steps[j], d)
      ensures Suspicious()(d) && HasTimers(SLOW)(d)
    {
      if j < |run.steps| {
        assert Writes(run.states[j], run.steps[j], d);
      }
    }
    if OneBoot(run) && (step.Boot? ==> step.id.ep !in Last(run).boots) {
      forall i | 0 <= i < |z.steps| && z.steps[i].Boot? ensures z.steps[i].id.ep !in z.states[i].boots {
        assert i < |run.steps| ==> run.steps[i] == z.steps[i] && run.states[i] == z.states[i];
      }
    }
  }

  lemma Goes(run: Run, step: Step, s: Cluster) returns (z: Run)
    requires Calm(run) && Next(Last(run), step, s) && Addressed(step) && !step.Admin? && !step.ScanItem?
    requires step.Boot? ==> step.cfg.knobs == KnobsWith(SLOW)
    ensures Calm(z) && z.states == run.states + [s] && z.steps == run.steps + [step] && Last(z) == s
    ensures OneBoot(run) && (step.Boot? ==> step.id.ep !in Last(run).boots) ==> OneBoot(z)
  {
    hide Tame, Next, Addressed;
    z := GoesTame(run, step, s);
  }

  /** `b` joins through `a`. */
  lemma Meet(a: NodeId, b: NodeId) returns (run: Run)
    requires a.ep != b.ep
    ensures Calm(run) && OneBoot(run) && |run.steps| == 3 && |run.states| == 4
    ensures var (a0, b0) := (Entry(a, 100, Alive, 0), Entry(b, 100, Alive, 0));
      var s := Last(run);
      && s.clock == 0 && s.soup == {} && s.nodes.Keys == {a.ep, b.ep} && s.boots == map[a.ep := a.ts, b.ep := b.ts]
      && s.nodes[a.ep] == Serving(a, Host(SLOW), map[a.ep := a0, b.ep := b0], 2, Idle)
      && s.nodes[b.ep] == Serving(b, Guest(SLOW), map[b.ep := b0, a.ep := a0], 2, Idle)
  {
    hide Next, Calm, OneBoot, Serving, BootNode;
    var (a0, b0) := (Entry(a, 100, Alive, 0), Entry(b, 100, Alive, 0));
    var s0 := Cluster(0, map[], map[], {});
    run := CalmStarts(s0);
    BootsHost(s0, a, SLOW);
    var s1 := s0.(boots := s0.boots[a.ep := a.ts],
                  nodes := s0.nodes[a.ep := Serving(a, Host(SLOW), map[a.ep := a0], 1, Idle)]);
    run := Goes(run, Boot(a, Host(SLOW)), s1);
    BootsGuest(s1, b, SLOW);
    var s2 := s1.(boots := s1.boots[b.ep := b.ts], nodes := s1.nodes[b.ep := BootNode(b, Guest(SLOW), 0)]);
    run := Goes(run, Boot(b, Guest(SLOW)), s2);
    Joins(s2, a, Host(SLOW), map[a.ep := a0], 1, Idle, a0, b, SLOW);
    run := Goes(run, Join(b.ep, a.ep, [b0], [b0, a0], true),
      Put(Put(s2, a.ep, Serving(a, Host(SLOW), map[a.ep := a0, b.ep := b0], 2, Idle)),
          b.ep, Serving(b, Guest(SLOW), map[b.ep := b0, a.ep := a0], 2, Idle)));
  }

  /** `a` hears nothing for the length of both timeouts, and takes its snapshot. */
  lemma ScanBegins(a: NodeId, b: NodeId) returns (run: Run)
    requires a.ep != b.ep
    ensures Calm(run) && OneBoot(run) && |run.steps| == 5 && |run.states| == 6
    ensures var (a0, b0, a30) := (Entry(a, 100, Alive, 0), Entry(b, 100, Alive, 0), Entry(a, 100, Alive, 30));
      var s := Last(run);
      && s.clock == 30 && s.soup == {} && s.nodes.Keys == {a.ep, b.ep}
      && s.nodes[a.ep] == Serving(a, Host(SLOW), map[a.ep := a30, b.ep := b0], 2, Sweeping(30, SLOW, [b0, a30]))
      && s.nodes[b.ep] == Serving(b, Guest(SLOW), map[b.ep := b0, a.ep := a0], 2, Idle)
  {
    hide Next, Calm, OneBoot, Serving;
    var (a0, b0, a30) := (Entry(a, 100, Alive, 0), Entry(b, 100, Alive, 0), Entry(a, 100, Alive, 30));
    run := Meet(a, b);
    var s3 := Last(run);
    Waits(s3, 30);
    var s4 := s3.(clock := 30);
    run := Goes(run, Advance(30), s4);
    var table := map[a.ep := a0, b.ep := b0];
    assert table[a.ep := a30] == map[a.ep := a30, b.ep := b0];
    Begins(s4, a, Host(SLOW), table, 2, [b0, a30], a30);
    run := Goes(run, BeginScan(a.ep, 30, [b0, a30]),
      Put(s4, a.ep, Serving(a, Host(SLOW), table[a.ep := a30], 2, Sweeping(30, SLOW, [b0, a30]))));
  }

  /** While the scan is in progress `b` leaves, and tells so. */
  lemma LeaveTold(a: NodeId, b: NodeId) returns (run: Run)
    requires a.ep != b.ep
    ensures Calm(run) && OneBoot(run) && |run.steps| == 7 && |run.states| == 8
    ensures run.steps[5] == Leave(b.ep) && Runs(run.states[5], b) && LeaveInc(run.states[5], b) == 101
    ensures var (a0, b0, l, a30) :=
        (Entry(a, 100, Alive, 0), Entry(b, 100, Alive, 0), Entry(b, 101, Left, 30), Entry(a, 100, Alive, 30));
      var s := Last(run);
      && s.clock == 30 && a.ep in s.nodes && Telling(Guest(SLOW), [l, a0]) in s.soup
      && s.nodes[a.ep] == Serving(a, Host(SLOW), map[a.ep := a30, b.ep := b0], 2, Sweeping(30, SLOW, [b0, a30]))
  {
    hide Next, Calm, OneBoot;
    var (a0, b0, l) := (Entry(a, 100, Alive, 0), Entry(b, 100, Alive, 0), Entry(b, 101, Left, 30));
    run := ScanBegins(a, b);
    var s5 := Last(run);
    var table := map[b.ep := b0, a.ep := a0];
    Leaves(s5, b, Guest(SLOW), table, 2);
    assert table[b.ep := l] == map[b.ep := l, a.ep := a0];
    var s6 := Put(s5, b.ep, Serving(b, Guest(SLOW), map[b.ep := l, a.ep := a0], 3, Idle));
    run := Goes(run, Leave(b.ep), s6);
    assert a0 in [l, a0];
    Tells(s6, b, Guest(SLOW), [l, a0]);
    run := Goes(run, Send(b.ep, Telling(Guest(SLOW), [l, a0])), Emit(s6, Telling(Guest(SLOW), [l, a0])));
  }

  /** `a` accepts the leave. */
  lemma LeaveAccepted(a: NodeId, b: NodeId) returns (run: Run)
    requires a.ep != b.ep
    ensures Calm(run) && OneBoot(run) && |run.steps| == 8 && |run.states| == 9
    ensures run.steps[5] == Leave(b.ep) && Runs(run.states[5], b) && LeaveInc(run.states[5], b) == 101
    ensures var (b0, l, a30) := (Entry(b, 100, Alive, 0), Entry(b, 101, Left, 30), Entry(a, 100, Alive, 30));
      var s := Last(run);
      && s.clock == 30 && a.ep in s.nodes
      && s.nodes[a.ep] == Serving(a, Host(SLOW), map[a.ep := a30, b.ep := l], 3, Sweeping(30, SLOW, [b0, a30]))
  {
    hide Next, Calm, OneBoot;
    var (a0, b0, l, a30) :=
      (Entry(a, 100, Alive, 0), Entry(b, 100, Alive, 0), Entry(b, 101, Left, 30), Entry(a, 100, Alive, 30));
    run := LeaveTold(a, b);
    var s7 := Last(run);
    Hears(s7, a.ep, Guest(SLOW), l, a0);
    var n := s7.nodes[a.ep];
    assert Refresh(n.store, 30).table == n.store.table;
    var u := Update(n.store, l, 30);
    assert u.table == map[a.ep := a30, b.ep := l];
    assert Update(u, a0, 30) == u;
    assert a0 in [l, a0];
    run := Goes(run, Receive(a.ep, Telling(Guest(SLOW), [l, a0]), None), Put(s7, a.ep, n.(store := Update(u, a0, 30))));
  }

  /** What accepted leaves and evidence need besides: a run with one boot per endpoint and unchanged timers,
      suspicion on, in which a split scan undoes a leave that its own table has accepted, declares the leaver
      failed the moment it has left, and takes its row back to a lower incarnation. */
  lemma LeaveUndone(a: NodeId, b: NodeId) returns (run: Run)
    requires a.ep != b.ep
    ensures Tame(run) && OneBoot(run) && |run.steps| == 9
    ensures run.steps[5] == Leave(b.ep) && Runs(run.states[5], b) && LeaveInc(run.states[5], b) == 101
    ensures ShowsLeave(run.states[8], a.ep, b, 101)
    ensures Regresses(run.states[8], run.steps[8], a.ep, b.ep) && Hasty(run.states[8], run.steps[8], SLOW)
    ensures run.states[9].clock == 30 && a.ep in run.states[9].nodes
    ensures Get(run.states[9].nodes[a.ep].store.table, b.ep) == Some(Entry(b, 100, Failed, 30))
  {
    hide Next, Tame, OneBoot, Marks, Item, Target, ItemVerdict;
    var (b0, l, a30) := (Entry(b, 100, Alive, 0), Entry(b, 101, Left, 30), Entry(a, 100, Alive, 30));
    run := LeaveAccepted(a, b);
    var s8 := Last(run);
    var table := map[a.ep := a30, b.ep := l];
    assert [b0, a30] == [b0] + [a30];
    Acts(s8, a, 30, Host(SLOW), table, 3, b0, [a30], Failed);
    run := GoesTame(run, ScanItem(a.ep),
      Put(s8, a.ep, Serving(a, Host(SLOW), table[b.ep := Entry(b, 100, Failed, 30)], 4, Sweeping(30, SLOW, [a30]))));
  }

  // ---------------- a leave undone everywhere, by the verdict on an earlier boot ----------------

  /** A whole scan of two rows marks the peer's. */
  lemma SweepsPeer(id: NodeId, own: Entry, e: Entry, v: State, tick: int, t: Timers)
    requires e.id.ep != id.ep && own.id == id && own.state == Alive && Judge(e, id, tick, t) == Mark(v)
    ensures var table := map[id.ep := own, e.id.ep := e];
      && SweepTable(table, id, tick, t) == map[id.ep := own, e.id.ep := e.(state := v)]
      && |Touched(table, id, tick, t)| == 1
  {
    var table := map[id.ep := own, e.id.ep := e];
    assert Touched(table, id, tick, t) == {e.id.ep};
  }

  lemma Scans(s: Cluster, id: NodeId, c: Config, table: Table, version: nat, own: Entry, e: Entry, v: State)
    requires id.ep in s.nodes && s.nodes[id.ep] == Serving(id, c, table, version, Idle)
    requires e.id.ep != id.ep && table == map[id.ep := own, e.id.ep := e] && own.id == id && own.state == Alive
    requires Judge(e, id, s.clock, TimersOf(c)) == Mark(v)
    ensures Next(s, Scan(id.ep, s.clock),
      Put(s, id.ep, Serving(id, c, map[id.ep := own.(last := s.clock), e.id.ep := e.(state := v)], version + 1, Idle)))
  {
    hide SweepTable, Touched, StartProtocol, Judge;
    var r := Refresh(s.nodes[id.ep].store, s.clock);
    assert r.table == map[id.ep := own.(last := s.clock), e.id.ep := e];
    SweepsPeer(id, own.(last := s.clock), e, v, s.clock, TimersOf(c));
  }

  /** `b` has been silent for so long that `a` suspects it, and tells so. */
  lemma Suspected(a: NodeId, b: NodeId) returns (run: Run)
    requires a.ep != b.ep
    ensures Calm(run) && |run.steps| == 6 && |run.states| == 7
    ensures var (a0, b0, a10, d) :=
        (Entry(a, 100, Alive, 0), Entry(b, 100, Alive, 0), Entry(a, 100, Alive, 10), Entry(b, 100, Suspect, 0));
      var s := Last(run);
      && s.clock == 10 && s.nodes.Keys == {a.ep, b.ep} && s.boots == map[a.ep := a.ts, b.ep := b.ts]
      && Telling(Host(SLOW), [d, a10]) in s.soup
      && s.nodes[a.ep] == Serving(a, Host(SLOW), map[a.ep := a10, b.ep := d], 3, Idle)
      && s.nodes[b.ep] == Serving(b, Guest(SLOW), map[b.ep := b0, a.ep := a0], 2, Idle)
  {
    hide Next, Calm, OneBoot;
    var (a0, b0, a10, d) :=
      (Entry(a, 100, Alive, 0), Entry(b, 100, Alive, 0), Entry(a, 100, Alive, 10), Entry(b, 100, Suspect, 0));
    run := Meet(a, b);
    var s3 := Last(run);
    Waits(s3, 10);
    var s4 := s3.(clock := 10);
    run := Goes(run, Advance(10), s4);
    Scans(s4, a, Host(SLOW), map[a.ep := a0, b.ep := b0], 2, a0, b0, Suspect);
    var s5 := Put(s4, a.ep, Serving(a, Host(SLOW), map[a.ep := a10, b.ep := d], 3, Idle));
    run := Goes(run, Scan(a.ep, 10), s5);
    assert d in [d, a10];
    Tells(s5, a, Host(SLOW), [d, a10]);
    run := Goes(run, Send(a.ep, Telling(Host(SLOW), [d, a10])), Emit(s5, Telling(Host(SLOW), [d, a10])));
  }

  /** `b` refutes, and tells so. */
  lemma Refuted(a: NodeId, b: NodeId) returns (run: Run)
    requires a.ep != b.ep
    ensures Calm(run) && |run.steps| == 8 && |run.states| == 9
    ensures var (a10, d, e) := (Entry(a, 100, Alive, 10), Entry(b, 100, Suspect, 0), Entry(b, 101, Alive, 10));
      var s := Last(run);
      && s.clock == 10 && s.nodes.Keys == {a.ep, b.ep} && s.boots == map[a.ep := a.ts, b.ep := b.ts]
      && Telling(Guest(SLOW), [e, a10]) in s.soup
      && s.nodes[a.ep] == Serving(a, Host(SLOW), map[a.ep := a10, b.ep := d], 3, Idle)
  {
    hide Next, Calm;
    var (a0, b0, a10, b10, d, e) :=
      (Entry(a, 100, Alive, 0), Entry(b, 100, Alive, 0), Entry(a, 100, Alive, 10), Entry(b, 100, Alive, 10),
       Entry(b, 100, Suspect, 0), Entry(b, 101, Alive, 10));
    run := Suspected(a, b);
    var s6 := Last(run);
    Hears(s6, b.ep, Host(SLOW), d, a10);
    var n := s6.nodes[b.ep];
    var r := Refresh(n.store, 10);
    assert r.table == map[b.ep := b10, a.ep := a0];
    var u := Update(r, d, 10);
    assert u.table == map[b.ep := e, a.ep := a0];
    assert Update(u, a10, 10).table == map[b.ep := e, a.ep := a10];
    assert d in [d, a10];
    var s7 := Put(s6, b.ep, Serving(b, Guest(SLOW), map[b.ep := e, a.ep := a10], 4, Idle));
    run := Goes(run, Receive(b.ep, Telling(Host(SLOW), [d, a10]), None), s7);
    assert a10 in [e, a10];
    Tells(s7, b, Guest(SLOW), [e, a10]);
    run := Goes(run, Send(b.ep, Telling(Guest(SLOW), [e, a10])), Emit(s7, Telling(Guest(SLOW), [e, a10])));
  }

  /** `a` hears of it, and `b` is silent again, now for good. */
  lemma SilentAgain(a: NodeId, b: NodeId) returns (run: Run)
    requires a.ep != b.ep
    ensures Calm(run) && |run.steps| == 12 && |run.states| == 13
    ensures var (a20, e) := (Entry(a, 100, Alive, 20), Entry(b, 101, Alive, 10));
      var s := Last(run);
      && s.clock == 20 && s.nodes.Keys == {a.ep} && s.boots == map[a.ep := a.ts, b.ep := b.ts]
      && s.nodes[a.ep] == Serving(a, Host(SLOW), map[a.ep := a20, b.ep := e], 4, Sweeping(20, SLOW, [e, a20]))
  {
    hide Next, Calm;
    var (a10, a20, d, e) :=
      (Entry(a, 100, Alive, 10), Entry(a, 100, Alive, 20), Entry(b, 100, Suspect, 0), Entry(b, 101, Alive, 10));
    run := Refuted(a, b);
    var s8 := Last(run);
    Hears(s8, a.ep, Guest(SLOW), e, a10);
    var n := s8.nodes[a.ep];
    assert Refresh(n.store, 10).table == n.store.table;
    var u := Update(n.store, e, 10);
    assert u.table == map[a.ep := a10, b.ep := e];
    assert Update(u, a10, 10) == u;
    assert a10 in [e, a10];
    var table := map[a.ep := a10, b.ep := e];
    var s9 := Put(s8, a.ep, Serving(a, Host(SLOW), table, 4, Idle));
    run := Goes(run, Receive(a.ep, Telling(Guest(SLOW), [e, a10]), None), s9);
    run := CrashesInScan(run, s9, a, b, table, e, a20);
  }

  /** `a` begins a scan, and `b` crashes. */
  lemma CrashesInScan(run: Run, s: Cluster, a: NodeId, b: NodeId, table: Table, e: Entry, a20: Entry) returns (z: Run)
    requires Calm(run) && Last(run) == s && a.ep != b.ep && b.ep in s.nodes && e.id == b && s.clock <= 20
    requires a.ep in s.nodes && s.nodes[a.ep] == Serving(a, Host(SLOW), table, 4, Idle)
    requires table == map[a.ep := a20.(last := 10), b.ep := e] && a20 == Entry(a, 100, Alive, 20)
    ensures Calm(z) && |z.steps| == |run.steps| + 3 && |z.states| == |run.states| + 3
    ensures var s' := Last(z);
      && s'.clock == 20 && s'.nodes.Keys == s.nodes.Keys - {b.ep} && s'.boots == s.boots
      && s'.nodes[a.ep] == Serving(a, Host(SLOW), map[a.ep := a20, b.ep := e], 4, Sweeping(20, SLOW, [e, a20]))
  {
    hide Next, Calm, Serving;
    Waits(s, 20);
    var t := s.(clock := 20);
    z := Goes(run, Advance(20), t);
    assert table[a.ep := a20] == map[a.ep := a20, b.ep := e];
    Begins(t, a, Host(SLOW), table, 4, [e, a20], a20);
    var u := Put(t, a.ep, Serving(a, Host(SLOW), map[a.ep := a20, b.ep := e], 4, Sweeping(20, SLOW, [e, a20])));
    z := Goes(z, BeginScan(a.ep, 20, [e, a20]), u);
    Crashes(u, b.ep);
    z := Goes(z, Crash(b.ep), u.(nodes := u.nodes - {b.ep}));
  }

  /** The endpoint of `b` reboots as `c`, and joins. */
  lemma SecondJoin(a: NodeId, b: NodeId, c: NodeId) returns (run: Run)
    requires a.ep != b.ep && c.ep == b.ep && c.ts > b.ts
    ensures Calm(run) && |run.steps| == 14 && |run.states| == 15
    ensures var (a20, c20, e) := (Entry(a, 100, Alive, 20), Entry(c, 100, Alive, 20), Entry(b, 101, Alive, 10));
      var s := Last(run);
      && s.clock == 20 && s.nodes.Keys == {a.ep, c.ep}
      && s.nodes[a.ep] == Serving(a, Host(SLOW), map[a.ep := a20, c.ep := c20], 5, Sweeping(20, SLOW, [e, a20]))
      && s.nodes[c.ep] == Serving(c, Guest(SLOW), map[c.ep := c20, a.ep := a20], 2, Idle)
  {
    hide Next, Calm, BootNode, Serving;
    var (a20, c20, e) := (Entry(a, 100, Alive, 20), Entry(c, 100, Alive, 20), Entry(b, 101, Alive, 10));
    run := SilentAgain(a, b);
    var s12 := Last(run);
    BootsGuest(s12, c, SLOW);
    var s13 := s12.(boots := s12.boots[c.ep := c.ts], nodes := s12.nodes[c.ep := BootNode(c, Guest(SLOW), 20)]);
    run := Goes(run, Boot(c, Guest(SLOW)), s13);
    var work := Sweeping(20, SLOW, [e, a20]);
    Joins(s13, a, Host(SLOW), map[a.ep := a20, b.ep := e], 4, work, a20, c, SLOW);
    run := Goes(run, Join(c.ep, a.ep, [c20], [c20, a20], true),
      Put(Put(s13, a.ep, Serving(a, Host(SLOW), map[a.ep := a20, c.ep := c20], 5, work)),
          c.ep, Serving(c, Guest(SLOW), map[c.ep := c20, a.ep := a20], 2, Idle)));
  }

  /** It leaves. */
  lemma SecondLeave(a: NodeId, b: NodeId, c: NodeId) returns (run: Run)
    requires a.ep != b.ep && c.ep == b.ep && c.ts > b.ts
    ensures Calm(run) && |run.steps| == 15 && |run.states| == 16
    ensures run.steps[14] == Leave(c.ep) && Runs(run.states[14], c) && LeaveInc(run.states[14], c) == 101
    ensures var (a20, c20, l, e) :=
        (Entry(a, 100, Alive, 20), Entry(c, 100, Alive, 20), Entry(c, 101, Left, 20), Entry(b, 101, Alive, 10));
      var s := Last(run);
      && s.clock == 20 && s.nodes.Keys == {a.ep, c.ep}
      && s.nodes[a.ep] == Serving(a, Host(SLOW), map[a.ep := a20, c.ep := c20], 5, Sweeping(20, SLOW, [e, a20]))
      && s.nodes[c.ep] == Serving(c, Guest(SLOW), map[c.ep := l, a.ep := a20], 3, Idle)
  {
    hide Next, Calm;
    var (a20, c20, l) := (Entry(a, 100, Alive, 20), Entry(c, 100, Alive, 20), Entry(c, 101, Left, 20));
    run := SecondJoin(a, b, c);
    var s14 := Last(run);
    var table := map[c.ep := c20, a.ep := a20];
    Leaves(s14, c, Guest(SLOW), table, 2);
    assert table[c.ep := l] == map[c.ep := l, a.ep := a20];
    run := Goes(run, Leave(c.ep), Put(s14, c.ep, Serving(c, Guest(SLOW), map[c.ep := l, a.ep := a20], 3, Idle)));
  }

  /** It tells so. */
  lemma SecondLeaveTold(a: NodeId, b: NodeId, c: NodeId) returns (run: Run)
    requires a.ep != b.ep && c.ep == b.ep && c.ts > b.ts
    ensures Calm(run) && |run.steps| == 16 && |run.states| == 17
    ensures run.steps[14] == Leave(c.ep) && Runs(run.states[14], c) && LeaveInc(run.states[14], c) == 101
    ensures var (a20, c20, l, e) :=
        (Entry(a, 100, Alive, 20), Entry(c, 100, Alive, 20), Entry(c, 101, Left, 20), Entry(b, 101, Alive, 10));
      var s := Last(run);
      && s.clock == 20 && s.nodes.Keys == {a.ep, c.ep} && Telling(Guest(SLOW), [l, a20]) in s.soup
      && s.nodes[a.ep] == Serving(a, Host(SLOW), map[a.ep := a20, c.ep := c20], 5, Sweeping(20, SLOW, [e, a20]))
      && s.nodes[c.ep] == Serving(c, Guest(SLOW), map[c.ep := l, a.ep := a20], 3, Idle)
  {
    hide Next, Calm, LeaveInc;
    var (a20, l) := (Entry(a, 100, Alive, 20), Entry(c, 101, Left, 20));
    run := SecondLeave(a, b, c);
    var s15 := Last(run);
    assert a20 in [l, a20];
    Tells(s15, c, Guest(SLOW), [l, a20]);
    run := Goes(run, Send(c.ep, Telling(Guest(SLOW), [l, a20])), Emit(s15, Telling(Guest(SLOW), [l, a20])));
  }

  /** `a` accepts this leave too. */
  lemma SecondLeaveAccepted(a: NodeId, b: NodeId, c: NodeId) returns (run: Run)
    requires a.ep != b.ep && c.ep == b.ep && c.ts > b.ts
    ensures Calm(run) && |run.steps| == 17 && |run.states| == 18
    ensures run.steps[14] == Leave(c.ep) && Runs(run.states[14], c) && LeaveInc(run.states[14], c) == 101
    ensures var (a20, l, e) := (Entry(a, 100, Alive, 20), Entry(c, 101, Left, 20), Entry(b, 101, Alive, 10));
      var s := Last(run);
      && s.clock == 20 && s.nodes.Keys == {a.ep, c.ep}
      && s.nodes[a.ep] == Serving(a, Host(SLOW), map[a.ep := a20, c.ep := l], 6, Sweeping(20, SLOW, [e, a20]))
      && s.nodes[c.ep] == Serving(c, Guest(SLOW), map[c.ep := l, a.ep := a20], 3, Idle)
  {
    hide Next, Calm, LeaveInc;
    var (a20, l) := (Entry(a, 100, Alive, 20), Entry(c, 101, Left, 20));
    run := SecondLeaveTold(a, b, c);
    var s16 := Last(run);
    Hears(s16, a.ep, Guest(SLOW), l, a20);
    var n := s16.nodes[a.ep];
    assert Refresh(n.store, 20).table == n.store.table;
    var u := Update(n.store, l, 20);
    assert u.table == map[a.ep := a20, c.ep := l];
    assert Update(u, a20, 20) == u;
    assert a20 in [l, a20];
    run := Goes(run, Receive(a.ep, Telling(Guest(SLOW), [l, a20]), None), Put(s16, a.ep, n.(store := u)));
  }

  /** What the finality of leaving needs besides own-entry safety: a run, suspicion on, in which nothing has been
      overwritten, and yet the verdict on an earlier boot, at the incarnation at which a later boot has left,
      turns that leave into a suspicion. */
  lemma LeaveReinstated(a: NodeId, b: NodeId, c: NodeId) returns (run: Run)
    requires a.ep != b.ep && c.ep == b.ep && c.ts > b.ts
    ensures Tame(run) && |run.steps| == 18 && Unspoilt(run, 18)
    ensures run.steps[14] == Leave(c.ep) && Runs(run.states[14], c) && LeaveInc(run.states[14], c) == 101
    ensures ShowsLeave(run.states[17], a.ep, c, 101)
    ensures Reinstates(run.states[17], run.steps[17], c, 101) && !Regresses(run.states[17], run.steps[17], a.ep, c.ep)
    ensures a.ep in run.states[18].nodes
    ensures Get(run.states[18].nodes[a.ep].store.table, c.ep) == Some(Entry(c, 101, Suspect, 20))
  {
    hide Next, Tame, Item, Target, ItemVerdict;
    var (a20, l, e) := (Entry(a, 100, Alive, 20), Entry(c, 101, Left, 20), Entry(b, 101, Alive, 10));
    run := SecondLeaveAccepted(a, b, c);
    var s17 := Last(run);
    var table := map[a.ep := a20, c.ep := l];
    assert [e, a20] == [e] + [a20];
    Acts(s17, a, 20, Host(SLOW), table, 6, e, [a20], Suspect);
    var calm := run;
    run := GoesTame(run, ScanItem(a.ep),
      Put(s17, a.ep, Serving(a, Host(SLOW), table[c.ep := Entry(c, 101, Suspect, 20)], 7, Sweeping(20, SLOW, [a20]))));
    OnlyLastItem(run, 17);
  }

  /** A run whose only item is its last step, and no overwrite, is unspoilt. */
  lemma OnlyLastItem(run: Run, k: nat)
    requires Tame(run) && |run.steps| == k + 1 && !Overwrites(run.states[k], run.steps[k])
    requires forall i | 0 <= i < k :: !run.steps[i].ScanItem?
    ensures Unspoilt(run, k + 1)
  {
  }

  // ------------------- a running node that believes itself failed -------------------

  /** Suspicion off at one node, on at the other. */
  const FAST := Timers(0, 2, 9)
  const WARY := Timers(10, 2, 9)

  /** `b` joins through `a`, and leaves at time one. */
  lemma JoinAndLeave(a: NodeId, b: NodeId) returns (run: Run)
    requires a.ep != b.ep
    ensures Actual(run) && |run.steps| == 5 && |run.states| == 6
    ensures var (a0, b0, l) := (Entry(a, 100, Alive, 0), Entry(b, 100, Alive, 0), Entry(b, 101, Left, 1));
      var s := Last(run);
      && s.clock == 1 && s.nodes.Keys == {a.ep, b.ep} && s.boots == map[a.ep := a.ts, b.ep := b.ts]
      && s.nodes[a.ep] == Serving(a, Host(FAST), map[a.ep := a0, b.ep := b0], 2, Idle)
      && s.nodes[b.ep] == Serving(b, Guest(WARY), map[b.ep := l, a.ep := a0], 3, Idle)
  {
    hide Next, Actual, Serving, BootNode;
    var (a0, b0, l) := (Entry(a, 100, Alive, 0), Entry(b, 100, Alive, 0), Entry(b, 101, Left, 1));
    var s0 := Cluster(0, map[], map[], {});
    run := Starts(s0);
    BootsHost(s0, a, FAST);
    var s1 := s0.(boots := s0.boots[a.ep := a.ts],
                  nodes := s0.nodes[a.ep := Serving(a, Host(FAST), map[a.ep := a0], 1, Idle)]);
    run := GoesOn(run, Boot(a, Host(FAST)), s1);
    BootsGuest(s1, b, WARY);
    var s2 := s1.(boots := s1.boots[b.ep := b.ts], nodes := s1.nodes[b.ep := BootNode(b, Guest(WARY), 0)]);
    run := GoesOn(run, Boot(b, Guest(WARY)), s2);
    Joins(s2, a, Host(FAST), map[a.ep := a0], 1, Idle, a0, b, WARY);
    var table := map[b.ep := b0, a.ep := a0];
    var s3 := Put(Put(s2, a.ep, Serving(a, Host(FAST), map[a.ep := a0, b.ep := b0], 2, Idle)),
                  b.ep, Serving(b, Guest(WARY), table, 2, Idle));
    run := GoesOn(run, Join(b.ep, a.ep, [b0], [b0, a0], true), s3);
    Waits(s3, 1);
    var s4 := s3.(clock := 1);
    run := GoesOn(run, Advance(1), s4);
    Leaves(s4, b, Guest(WARY), table, 2);
    assert table[b.ep := l] == map[b.ep := l, a.ep := a0];
    run := GoesOn(run, Leave(b.ep), Put(s4, b.ep, Serving(b, Guest(WARY), table[b.ep := l], 3, Idle)));
  }

  /** `a` hears of the leave. */
  lemma LeaveHeard(a: NodeId, b: NodeId) returns (run: Run)
    requires a.ep != b.ep
    ensures Actual(run) && |run.steps| == 7 && |run.states| == 8
    ensures var (a1, l) := (Entry(a, 100, Alive, 1), Entry(b, 101, Left, 1));
      var s := Last(run);
      && s.clock == 1 && s.nodes.Keys == {a.ep, b.ep} && s.boots == map[a.ep := a.ts, b.ep := b.ts]
      && s.nodes[a.ep] == Serving(a, Host(FAST), map[a.ep := a1, b.ep := l], 3, Idle)
  {
    hide Next, Actual;
    var (a0, a1, b0, l) :=
      (Entry(a, 100, Alive, 0), Entry(a, 100, Alive, 1), Entry(b, 100, Alive, 0), Entry(b, 101, Left, 1));
    run := JoinAndLeave(a, b);
    var s5 := Last(run);
    assert a0 in [l, a0];
    Tells(s5, b, Guest(WARY), [l, a0]);
    var s6 := Emit(s5, Telling(Guest(WARY), [l, a0]));
    run := GoesOn(run, Send(b.ep, Telling(Guest(WARY), [l, a0])), s6);
    Hears(s6, a.ep, Guest(WARY), l, a0);
    var n := s6.nodes[a.ep];
    var r := Refresh(n.store, 1);
    assert r.table == map[a.ep := a1, b.ep := b0];
    var u := Update(r, l, 1);
    assert u.table == map[a.ep := a1, b.ep := l];
    assert Update(u, a0, 1) == u;
    run := GoesOn(run, Receive(a.ep, Telling(Guest(WARY), [l, a0]), None), Put(s6, a.ep, n.(store := Update(u, a0, 1))));
  }

  /** `a` begins a scan over a snapshot that still shows the leave; meanwhile `b` crashes. */
  lemma ScanOverLeave(a: NodeId, b: NodeId) returns (run: Run)
    requires a.ep != b.ep
    ensures Actual(run) && |run.steps| == 10 && |run.states| == 11
    ensures var (l, a3) := (Entry(b, 101, Left, 1), Entry(a, 100, Alive, 3));
      var s := Last(run);
      && s.clock == 3 && s.nodes.Keys == {a.ep} && s.boots == map[a.ep := a.ts, b.ep := b.ts]
      && s.nodes[a.ep] == Serving(a, Host(FAST), map[a.ep := a3, b.ep := l], 3, Sweeping(3, FAST, [l, a3]))
  {
    hide Next, Actual, Serving;
    var (l, a1, a3) := (Entry(b, 101, Left, 1), Entry(a, 100, Alive, 1), Entry(a, 100, Alive, 3));
    run := LeaveHeard(a, b);
    var s7 := Last(run);
    Waits(s7, 3);
    var s8 := s7.(clock := 3);
    run := GoesOn(run, Advance(3), s8);
    var table := map[a.ep := a1, b.ep := l];
    assert table[a.ep := a3] == map[a.ep := a3, b.ep := l];
    Begins(s8, a, Host(FAST), table, 3, [l, a3], a3);
    var s9 := Put(s8, a.ep, Serving(a, Host(FAST), map[a.ep := a3, b.ep := l], 3, Sweeping(3, FAST, [l, a3])));
    run := GoesOn(run, BeginScan(a.ep, 3, [l, a3]), s9);
    Crashes(s9, b.ep);
    run := GoesOn(run, Crash(b.ep), s9.(nodes := s9.nodes - {b.ep}));
  }

  /** The endpoint of `b` reboots as `c`, which joins through `a`. */
  lemma Rejoins(a: NodeId, b: NodeId, c: NodeId) returns (run: Run)
    requires a.ep != b.ep && c.ep == b.ep && c.ts > b.ts
    ensures Actual(run) && |run.steps| == 12 && |run.states| == 13
    ensures var (l, a3, c3) := (Entry(b, 101, Left, 1), Entry(a, 100, Alive, 3), Entry(c, 100, Alive, 3));
      var s := Last(run);
      && s.clock == 3 && s.nodes.Keys == {a.ep, c.ep}
      && s.nodes[a.ep] == Serving(a, Host(FAST), map[a.ep := a3, c.ep := c3], 4, Sweeping(3, FAST, [l, a3]))
      && s.nodes[c.ep] == Serving(c, Guest(WARY), map[c.ep := c3, a.ep := a3], 2, Idle)
  {
    hide Next, Actual, Serving, BootNode;
    var (l, a3, c3) := (Entry(b, 101, Left, 1), Entry(a, 100, Alive, 3), Entry(c, 100, Alive, 3));
    run := ScanOverLeave(a, b);
    var s10 := Last(run);
    BootsGuest(s10, c, WARY);
    var s11 := s10.(boots := s10.boots[c.ep := c.ts], nodes := s10.nodes[c.ep := BootNode(c, Guest(WARY), 3)]);
    run := GoesOn(run, Boot(c, Guest(WARY)), s11);
    var work := Sweeping(3, FAST, [l, a3]);
    Joins(s11, a, Host(FAST), map[a.ep := a3, b.ep := l], 3, work, a3, c, WARY);
    run := GoesOn(run, Join(c.ep, a.ep, [c3], [c3, a3], true),
      Put(Put(s11, a.ep, Serving(a, Host(FAST), map[a.ep := a3, c.ep := c3], 4, work)),
          c.ep, Serving(c, Guest(WARY), map[c.ep := c3, a.ep := a3], 2, Idle)));
  }

  /** `a` writes the verdict on the old boot over the row of the new one. */
  lemma VerdictWritten(a: NodeId, b: NodeId, c: NodeId) returns (run: Run)
    requires a.ep != b.ep && c.ep == b.ep && c.ts > b.ts
    ensures Actual(run) && |run.steps| == 13 && |run.states| == 14
    ensures Overwrites(run.states[12], run.steps[12])
    ensures var (f, a3, c3) := (Entry(c, 101, Failed, 3), Entry(a, 100, Alive, 3), Entry(c, 100, Alive, 3));
      var s := Last(run);
      && s.clock == 3 && s.nodes.Keys == {a.ep, c.ep}
      && s.nodes[a.ep] == Serving(a, Host(FAST), map[a.ep := a3, c.ep := f], 5, Sweeping(3, FAST, [a3]))
      && s.nodes[c.ep] == Serving(c, Guest(WARY), map[c.ep := c3, a.ep := a3], 2, Idle)
  {
    hide Next, Actual, Marks, Item, Target, ItemVerdict;
    var (l, a3, c3, f) :=
      (Entry(b, 101, Left, 1), Entry(a, 100, Alive, 3), Entry(c, 100, Alive, 3), Entry(c, 101, Failed, 3));
    run := Rejoins(a, b, c);
    var s12 := Last(run);
    var table := map[a.ep := a3, c.ep := c3];
    assert [l, a3] == [l] + [a3];
    Acts(s12, a, 3, Host(FAST), table, 4, l, [a3], Failed);
    assert table[c.ep := f] == map[a.ep := a3, c.ep := f];
    run := GoesOn(run, ScanItem(a.ep),
      Put(s12, a.ep, Serving(a, Host(FAST), table[c.ep := f], 5, Sweeping(3, FAST, [a3]))));
  }

  /** What own-entry safety needs: a run in which the verdict on a boot that had left at incarnation 101 is
      written over the row of the boot `c` that followed it. Authority is gone at once: the row claims a higher
      incarnation for `c` than `c` has. When the claim reaches `c`, own-entry safety is gone too: a higher
      incarnation is believed, not refuted, and `c` runs on with its own row Failed. */
  lemma StaleVerdict(a: NodeId, b: NodeId, c: NodeId) returns (run: Run)
    requires a.ep != b.ep && c.ep == b.ep && c.ts > b.ts
    ensures Actual(run) && |run.steps| == 15 && Overwrites(run.states[12], run.steps[12])
    ensures a.ep in run.states[13].nodes && Runs(run.states[13], c) && Runs(run.states[15], c)
    ensures Get(run.states[13].nodes[a.ep].store.table, c.ep) == Some(Entry(c, 101, Failed, 3))
    ensures OwnInc(run.states[13], c) == 100
    ensures run.states[15].nodes[c.ep].store.tSuspect != 0
    ensures Get(run.states[15].nodes[c.ep].store.table, c.ep) == Some(Entry(c, 101, Failed, 3))
  {
    hide Next, Actual, Overwrites;
    var (a3, c3, f) := (Entry(a, 100, Alive, 3), Entry(c, 100, Alive, 3), Entry(c, 101, Failed, 3));
    run := VerdictWritten(a, b, c);
    var s13 := Last(run);
    assert f in [f, a3];
    Tells(s13, a, Host(FAST), [f, a3]);
    var s14 := Emit(s13, Telling(Host(FAST), [f, a3]));
    run := GoesOn(run, Send(a.ep, Telling(Host(FAST), [f, a3])), s14);
    Hears(s14, c.ep, Host(FAST), f, a3);
    var n := s14.nodes[c.ep];
    assert Refresh(n.store, 3).table == n.store.table;
    var u := Update(n.store, f, 3);
    assert u.table == map[c.ep := f, a.ep := a3];
    run := GoesOn(run, Receive(c.ep, Telling(Host(FAST), [f, a3]), None), Put(s14, c.ep, n.(store := Update(u, a3, 3))));
  }
}
