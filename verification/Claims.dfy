/** Claims: every entry in any table, message or scan in progress. Where the claims of one state come
    from in the state before it, once and for all steps; the invariants are instances. */
module Claims {
  import opened Identity
  import opened Membership
  import opened Scanner
  import opened Settings
  import opened Cluster

  function Todo(w: Work): seq<Entry> {
    match w
    case Idle => []
    case Sweeping(_, _, todo) => todo
  }

  ghost predicate NodeAll(n: Node, p: Entry -> bool) {
    TableAll(n.store.table, p) && ListAll(Todo(n.work), p)
  }

  ghost predicate EveryClaim(s: Cluster, p: Entry -> bool) {
    && (forall at | at in s.nodes :: NodeAll(s.nodes[at], p))
    && (forall m | m in s.soup :: ListAll(m.list, p))
  }

  ghost predicate HasOwn(n: Node) {
    n.store.self.ep in n.store.table
  }

  ghost function Own(n: Node): Entry
    requires HasOwn(n)
  {
    n.store.table[n.store.self.ep]
  }

  /** The own row as a snapshot at `now` shows it. */
  ghost function Shown(n: Node, now: int): Entry
    requires HasOwn(n)
  {
    if Own(n).state == Left then Own(n) else Own(n).(last := now)
  }

  lemma EveryClaimWeaken(s: Cluster, p: Entry -> bool, q: Entry -> bool)
    requires EveryClaim(s, p) && forall c :: p(c) ==> q(c)
    ensures EveryClaim(s, q)
  {
    forall at | at in s.nodes ensures NodeAll(s.nodes[at], q) {
      assert NodeAll(s.nodes[at], p);
    }
    forall m | m in s.soup ensures ListAll(m.list, q) {
      assert ListAll(m.list, p);
    }
  }

  // ------------------------------ well-formed nodes ------------------------------

  /** A running node holds its own row under its own identity; before it has joined it holds nothing else;
      what it is about to scan never condemns its own row. */
  ghost predicate Rooted(n: Node) {
    && Keyed(n.store.table) && HasOwn(n) && Own(n).id == n.store.self
    && (!n.started ==> n.store.table.Keys == {n.store.self.ep} && Own(n).state == Alive)
    && (forall e | e in Todo(n.work) && e.id.ep == n.store.self.ep :: e.id == n.store.self && e.state != Left)
  }

  /** A node runs at its own endpoint, as that endpoint's latest boot. */
  ghost predicate Seated(s: Cluster, at: Endpoint)
    requires at in s.nodes
  {
    var id := s.nodes[at].store.self;
    id.ep == at && at in s.boots && s.boots[at] == id.ts
  }

  ghost predicate RootedAt(s: Cluster, at: Endpoint)
    requires at in s.nodes
  {
    Seated(s, at) && Rooted(s.nodes[at])
  }

  /** And nobody has made it believe that it is suspect or failed. */
  ghost predicate Sound(n: Node) {
    Rooted(n) && (Own(n).state == Alive || Own(n).state == Left)
  }

  ghost predicate NodeOk(s: Cluster, at: Endpoint)
    requires at in s.nodes
  {
    Seated(s, at) && Sound(s.nodes[at])
  }

  /** The boot `id` is running. */
  predicate Runs(s: Cluster, id: NodeId) {
    id.ep in s.nodes && s.nodes[id.ep].store.self == id
  }

  ghost function OwnInc(s: Cluster, id: NodeId): nat
    requires Runs(s, id)
  {
    if HasOwn(s.nodes[id.ep]) then Own(s.nodes[id.ep]).inc else 0
  }

  /** What every claim obeys in every valid run: it names a boot that happened, is not from the future and
      has a real state. */
  ghost predicate DatedIn(s: Cluster, c: Entry) {
    c.id.ep in s.boots && c.id.ts <= s.boots[c.id.ep] && c.last <= s.clock && c.state != Unknown
  }

  ghost function Dated(s: Cluster): Entry -> bool {
    c => DatedIn(s, c)
  }

  /** And, where authority holds, it claims no higher incarnation for a running node than that node's own. */
  ghost predicate LawfulIn(s: Cluster, c: Entry) {
    DatedIn(s, c) && (Runs(s, c.id) && HasOwn(s.nodes[c.id.ep]) ==> c.inc <= Own(s.nodes[c.id.ep]).inc)
  }

  ghost function Lawful(s: Cluster): Entry -> bool {
    c => LawfulIn(s, c)
  }

  ghost predicate Inv(s: Cluster) {
    (forall at | at in s.nodes :: NodeOk(s, at)) && EveryClaim(s, Lawful(s))
  }

  /** Every claim about an endpoint names its one boot. */
  ghost function FirstBoot(s: Cluster): Entry -> bool {
    (c: Entry) => c.id.ep in s.boots && c.id.ts == s.boots[c.id.ep]
  }

  // ------------------------------ provenance ------------------------------

  /** `p` survives the marks a whole scan makes. */
  ghost predicate ScanClosed(p: Entry -> bool, self: NodeId, tick: int, t: Timers) {
    forall c | p(c) && Judge(c, self, tick, t).Mark? :: p(Sentenced(c, Judge(c, self, tick, t)))
  }

  /** `p` survives a mark decided on a snapshot row `e` and written over the current row `c`. */
  ghost predicate ItemClosed(p: Entry -> bool, self: NodeId, tick: int, t: Timers) {
    forall c, e | p(c) && p(e) && c.id.ep == e.id.ep && Judge(e, self, tick, t).Mark? ::
      p(Sentenced(c, Judge(e, self, tick, t)).(inc := e.inc))
  }

  ghost predicate ActorsOk(s: Cluster, step: Step) {
    forall at | at in Actors(step) && at in s.nodes :: RootedAt(s, at)
  }

  /** The own rows that acting nodes show and leave satisfy `p`. */
  ghost predicate OwnRowsCarry(p: Entry -> bool, s: Cluster, step: Step, s': Cluster) {
    && (forall at | at in Actors(step) && at in s.nodes && HasOwn(s.nodes[at]) :: p(Shown(s.nodes[at], s.clock)))
    && (forall at | at in Actors(step) && at in s'.nodes && HasOwn(s'.nodes[at]) :: p(Own(s'.nodes[at])))
  }

  /** `p` survives the marks the step makes, if it is a scan or part of one. */
  ghost predicate MarksCarry(p: Entry -> bool, s: Cluster, step: Step) {
    && (step.Scan? && step.at in s.nodes ==>
          var n := s.nodes[step.at]; ScanClosed(p, n.store.self, step.tick, n.timers))
    && (step.ScanItem? && step.at in s.nodes && s.nodes[step.at].work.Sweeping? ==>
          var n := s.nodes[step.at]; ItemClosed(p, n.store.self, n.work.tick, n.work.timers))
  }

  lemma SnappedClaims(s: Cluster, at: Endpoint, p: Entry -> bool)
    requires at in s.nodes && RootedAt(s, at) && EveryClaim(s, p) && p(Shown(s.nodes[at], s.clock))
    ensures var n := Snapped(s.nodes[at], s.clock);
      NodeAll(n, p) && HasOwn(n) && Own(n) == Shown(s.nodes[at], s.clock) && Keyed(n.store.table)
      && n.store.table.Keys == s.nodes[at].store.table.Keys
      && n.store.self == s.nodes[at].store.self
  {
    assert NodeAll(s.nodes[at], p);
  }

  lemma NodeClaims(s: Cluster, at: Endpoint, p: Entry -> bool)
    requires EveryClaim(s, p) && at in s.nodes
    ensures NodeAll(s.nodes[at], p)
  {
  }

  lemma ListingClaims(list: seq<Entry>, t: Table, p: Entry -> bool)
    requires Listing(list, t) && TableAll(t, p)
    ensures ListAll(list, p)
  {
  }

  /** What the introducer holds and sends when it answers a join; its own row only gets stamped. */
  lemma GreetedClaims(s: Cluster, at: Endpoint, via: Endpoint, ask: seq<Entry>, p: Entry -> bool)
    requires at in s.nodes && via in s.nodes && at != via && RootedAt(s, at) && RootedAt(s, via)
    requires !s.nodes[at].started && Listing(ask, Snapped(s.nodes[at], s.clock).store.table)
    requires EveryClaim(s, p) && RestampClosed(p, s.clock)
    requires p(Shown(s.nodes[at], s.clock)) && p(Shown(s.nodes[via], s.clock))
    ensures var i := Greeted(s.nodes[via], ask, s.clock);
      NodeAll(i, p) && HasOwn(i) && Own(i) == Shown(s.nodes[via], s.clock) && Keyed(i.store.table)
      && i.store.self == s.nodes[via].store.self && via in i.store.table
  {
    SnappedClaims(s, at, p);
    ListingClaims(ask, Snapped(s.nodes[at], s.clock).store.table, p);
    assert NodeAll(s.nodes[via], p);
    var n := s.nodes[via];
    MergeProvenance(n.store, ask, s.clock, p);
    MergeKeeps(n.store, ask, s.clock);
    MergeElsewhere(n.store, ask, s.clock, via);
  }

  lemma ReceivedClaims(s: Cluster, at: Endpoint, m: Message, p: Entry -> bool)
    requires at in s.nodes && RootedAt(s, at) && m in s.soup
    requires EveryClaim(s, p) && RestampClosed(p, s.clock) && p(Shown(s.nodes[at], s.clock))
    ensures var n := Received(s.nodes[at], m, s.clock);
      n.store.self == s.nodes[at].store.self && Keyed(n.store.table) && HasOwn(n)
      && TableAllBut(n.store.table, at, p) && ListAll(Todo(n.work), p)
  {
    var c := Configured(s.nodes[at], m.cfg);
    assert NodeAll(s.nodes[at], p) && ListAll(m.list, p);
    if !HasLeft(c.store) {
      var f := Refresh(c.store, s.clock);
      MergeProvenance(f, m.list, s.clock, p);
      MergeKeeps(f, m.list, s.clock);
    }
  }

  lemma WelcomedClaims(s: Cluster, at: Endpoint, cfg: Dto, reply: seq<Entry>, p: Entry -> bool)
    requires at in s.nodes && RootedAt(s, at) && ListAll(reply, p)
    requires EveryClaim(s, p) && RestampClosed(p, s.clock) && p(Shown(s.nodes[at], s.clock))
    ensures var n := Welcomed(s.nodes[at], cfg, reply, s.clock);
      n.store.self == s.nodes[at].store.self && Keyed(n.store.table) && HasOwn(n)
      && TableAllBut(n.store.table, at, p) && ListAll(Todo(n.work), p)
  {
    SnappedClaims(s, at, p);
    var c := Configured(Snapped(s.nodes[at], s.clock), cfg);
    MergeProvenance(c.store, reply, s.clock, p);
    MergeKeeps(c.store, reply, s.clock);
  }

  lemma PutClaims(s: Cluster, at: Endpoint, n: Node, p: Entry -> bool)
    requires EveryClaim(s, p) && NodeAll(n, p)
    ensures EveryClaim(Put(s, at, n), p)
  {
  }

  lemma EmitClaims(s: Cluster, m: Message, p: Entry -> bool)
    requires EveryClaim(s, p) && ListAll(m.list, p)
    ensures EveryClaim(Emit(s, m), p)
  {
  }

  lemma JoinClaims(s: Cluster, step: Step, s': Cluster, p: Entry -> bool)
    requires step.Join? && Next(s, step, s')
    requires ActorsOk(s, step) && EveryClaim(s, p)
    requires RestampClosed(p, s.clock) && OwnRowsCarry(p, s, step, s') && MarksCarry(p, s, step)
    ensures EveryClaim(s', p)
  {
    var Join(at, via, ask, reply, answered) := step;
    GreetedClaims(s, at, via, ask, p);
    var i := Greeted(s.nodes[via], ask, s.clock);
    PutClaims(s, via, i, p);
    if answered {
      ListingClaims(reply, i.store.table, p);
      WelcomedClaims(s, at, ToDto(i.cfg), reply, p);
      PutClaims(Put(s, via, i), at, Welcomed(s.nodes[at], ToDto(i.cfg), reply, s.clock), p);
    } else {
      SnappedClaims(s, at, p);
      PutClaims(Put(s, via, i), at, Snapped(s.nodes[at], s.clock), p);
    }
  }

  lemma ReceiveClaims(s: Cluster, step: Step, s': Cluster, p: Entry -> bool)
    requires step.Receive? && Next(s, step, s')
    requires ActorsOk(s, step) && EveryClaim(s, p)
    requires RestampClosed(p, s.clock) && OwnRowsCarry(p, s, step, s') && MarksCarry(p, s, step)
    ensures EveryClaim(s', p)
  {
    var Receive(at, m, ack) := step;
    ReceivedClaims(s, at, m, p);
    var n := s'.nodes[at];
    assert NodeAll(n, p);
    PutClaims(s, at, n, p);
    if ack.Some? {
      ListingClaims(ack.value.list, n.store.table, p);
      EmitClaims(Put(s, at, n), ack.value, p);
    }
  }

  lemma SweptClaims(n: Node, now: int, tick: int, p: Entry -> bool)
    requires NodeAll(Snapped(n, now), p) && ScanClosed(p, n.store.self, tick, n.timers)
    ensures var o := ScanOnce(n.store, now, tick, n.timers); o.Scanned? ==> NodeAll(n.(store := o.store), p)
  {
  }

  lemma ShownCarried(s: Cluster, step: Step, s': Cluster, at: Endpoint, p: Entry -> bool)
    requires ActorsOk(s, step) && OwnRowsCarry(p, s, step, s') && at in Actors(step) && at in s.nodes
    ensures RootedAt(s, at) && p(Shown(s.nodes[at], s.clock))
  {
  }

  lemma ScanClaims(s: Cluster, step: Step, s': Cluster, p: Entry -> bool)
    requires step.Scan? && Next(s, step, s')
    requires ActorsOk(s, step) && EveryClaim(s, p)
    requires RestampClosed(p, s.clock) && OwnRowsCarry(p, s, step, s') && MarksCarry(p, s, step)
    ensures EveryClaim(s', p)
  {
    hide ScanOnce, NodeAll, OwnRowsCarry;
    ShownCarried(s, step, s', step.at, p);
    SnappedClaims(s, step.at, p);
    SweptClaims(s.nodes[step.at], s.clock, step.tick, p);
    if step.at in s'.nodes {
      PutClaims(s, step.at, s'.nodes[step.at], p);
    }
  }

  lemma ItemClaims(s: Cluster, step: Step, s': Cluster, p: Entry -> bool)
    requires step.ScanItem? && Next(s, step, s') && RootedAt(s, step.at)
    requires EveryClaim(s, p)
    requires var n := s.nodes[step.at]; ItemClosed(p, n.store.self, n.work.tick, n.work.timers)
    ensures EveryClaim(s', p)
  {
    var n := s.nodes[step.at];
    var e := n.work.todo[0];
    assert NodeAll(n, p) && e in n.work.todo && p(e);
    var z := ItemSwept(n, s.clock);
    assert TableAll(z.store.table, p);
    assert ListAll(Todo(z.work), p);
    PutClaims(s, step.at, z, p);
  }

  lemma SnapClaims(s: Cluster, step: Step, s': Cluster, p: Entry -> bool)
    requires (step.Send? || step.BeginScan?) && Next(s, step, s')
    requires ActorsOk(s, step) && EveryClaim(s, p)
    requires RestampClosed(p, s.clock) && OwnRowsCarry(p, s, step, s') && MarksCarry(p, s, step)
    ensures EveryClaim(s', p)
  {
    SnappedClaims(s, step.at, p);
    var n := Snapped(s.nodes[step.at], s.clock);
    if step.Send? {
      ListingClaims(step.m.list, n.store.table, p);
      PutClaims(s, step.at, n, p);
      EmitClaims(Put(s, step.at, n), step.m, p);
    } else {
      ListingClaims(step.list, n.store.table, p);
      PutClaims(s, step.at, s'.nodes[step.at], p);
    }
  }

  lemma OwnStepClaims(s: Cluster, step: Step, s': Cluster, p: Entry -> bool)
    requires (step.Leave? || step.Admin?) && Next(s, step, s') && RootedAt(s, step.at)
    requires EveryClaim(s, p) && (HasOwn(s'.nodes[step.at]) ==> p(Own(s'.nodes[step.at])))
    ensures EveryClaim(s', p)
  {
    assert NodeAll(s.nodes[step.at], p);
    PutClaims(s, step.at, s'.nodes[step.at], p);
  }

  /** Provenance of claims over any step: a predicate carried by the own rows of the nodes that act, by
      restamping and by the marks of scans, carries over to every claim of the next state. */
  lemma StepClaims(s: Cluster, step: Step, s': Cluster, p: Entry -> bool)
    requires ActorsOk(s, step) && Next(s, step, s') && EveryClaim(s, p)
    requires RestampClosed(p, s.clock) && OwnRowsCarry(p, s, step, s') && MarksCarry(p, s, step)
    ensures EveryClaim(s', p)
  {
    hide Next, EveryClaim, ActorsOk, OwnRowsCarry, MarksCarry, RestampClosed;
    match step
    case Advance(_) => QuietClaims(s, step, s', p);
    case Crash(_) => QuietClaims(s, step, s', p);
    case Boot(_, _) => BootClaims(s, step, s', p);
    case Join(_, _, _, _, _) => JoinClaims(s, step, s', p);
    case Receive(_, _, _) => ReceiveClaims(s, step, s', p);
    case Scan(_, _) => ScanClaims(s, step, s', p);
    case ScanItem(_) => LocalClaims(s, step, s', p);
    case Send(_, _) => SnapClaims(s, step, s', p);
    case BeginScan(_, _, _) => SnapClaims(s, step, s', p);
    case Leave(_) => LocalClaims(s, step, s', p);
    case Admin(_, _) => LocalClaims(s, step, s', p);
  }

  lemma LocalClaims(s: Cluster, step: Step, s': Cluster, p: Entry -> bool)
    requires (step.ScanItem? || step.Leave? || step.Admin?) && Next(s, step, s')
    requires ActorsOk(s, step) && EveryClaim(s, p)
    requires RestampClosed(p, s.clock) && OwnRowsCarry(p, s, step, s') && MarksCarry(p, s, step)
    ensures EveryClaim(s', p)
  {
    if step.ScanItem? {
      ItemClaims(s, step, s', p);
    } else {
      OwnStepClaims(s, step, s', p);
    }
  }

  lemma QuietClaims(s: Cluster, step: Step, s': Cluster, p: Entry -> bool)
    requires (step.Advance? || step.Crash?) && Next(s, step, s') && EveryClaim(s, p)
    ensures EveryClaim(s', p)
  {
  }

  lemma BootClaims(s: Cluster, step: Step, s': Cluster, p: Entry -> bool)
    requires step.Boot? && Next(s, step, s')
    requires ActorsOk(s, step) && EveryClaim(s, p)
    requires RestampClosed(p, s.clock) && OwnRowsCarry(p, s, step, s') && MarksCarry(p, s, step)
    ensures EveryClaim(s', p)
  {
    assert HasOwn(s'.nodes[step.id.ep]) && p(Own(s'.nodes[step.id.ep]));
    assert NodeAll(s'.nodes[step.id.ep], p);
  }
}
