/** The cluster as a state machine: running nodes, every message ever sent, and one shared clock.
    Messages are never consumed, so a step may deliver any of them again, late, out of order, to
    anyone, or never. */
module Cluster {
  import opened Wrappers
  import opened Identity
  import opened Membership
  import opened Scanner
  import opened Settings

  datatype Kind = Gossip | Ping | Ack

  datatype Message = Message(kind: Kind, nonce: u64, list: seq<Entry>, cfg: Dto)

  /** A scan in progress, when it is not one step: the rows of its snapshot still to be processed,
      with the tick and the timers it read when it began. */
  datatype Work = Idle | Sweeping(tick: int, timers: Timers, todo: seq<Entry>)

  datatype Node = Node(
    store: Replica, timers: Timers, cfg: Config, booted: Config, loops: Loops, started: bool, work: Work)

  /** `boots` remembers the latest boot of every endpoint, running or not. */
  datatype Cluster = Cluster(
    clock: int, boots: map<Endpoint, u64>, nodes: map<Endpoint, Node>, soup: set<Message>)

  // ------------------------------ what one node does ------------------------------

  function TimersOf(c: Config): Timers {
    Timers(c.knobs.tSuspect, c.knobs.tFail, c.knobs.tCleanup)
  }

  /** Introducers start serving at once; other nodes only once they have joined. */
  function BootNode(id: NodeId, cfg: Config, now: int): Node {
    var n := Node(NewReplica(id, cfg.knobs.tSuspect, now), TimersOf(cfg), cfg, cfg, Loops(None, None, {}), false, Idle);
    if cfg.bootstrap.isIntroducer then Started(n) else n
  }

  function Started(n: Node): Node {
    n.(loops := StartProtocol(n.loops, n.booted), started := true)
  }

  function Configured(n: Node, d: Dto): Node {
    if Accepts(n.cfg, d) then
      var next := Adopted(n.cfg, d);
      n.(cfg := next, loops := ApplyRuntime(n.loops, n.cfg, next), timers := TimersOf(next),
         store := n.store.(tSuspect := next.knobs.tSuspect))
    else n
  }

  function Snapped(n: Node, now: int): Node {
    n.(store := Refresh(n.store, now))
  }

  function Heard(n: Node, list: seq<Entry>, now: int): Node {
    n.(store := Merge(n.store, list, now))
  }

  /** A message's configuration is applied first; a node that has left then stops listening; any other
      stamps its own row and merges the list. */
  function Received(n: Node, m: Message, now: int): Node {
    var c := Configured(n, m.cfg);
    if HasLeft(c.store) then c else Heard(Snapped(c, now), m.list, now)
  }

  function Departed(n: Node, now: int): Node {
    var r := Refresh(n.store, now);
    if r.self.ep in r.table && r.table[r.self.ep].id == r.self
    then n.(store := Apply(r, r.self, r.table[r.self.ep].inc + 1, Left, now))
    else n.(store := r)
  }

  function ItemSwept(n: Node, now: int): Node
    requires n.work.Sweeping? && n.work.todo != []
  {
    n.(store := SweepItem(n.store, n.work.todo[0], n.work.tick, n.work.timers, now),
       work := if |n.work.todo| == 1 then Idle else n.work.(todo := n.work.todo[1..]))
  }

  // ------------------------------ what the cluster does ------------------------------

  datatype Step =
    | Advance(to: int)
    | Boot(id: NodeId, cfg: Config)
    | Join(at: Endpoint, via: Endpoint, ask: seq<Entry>, reply: seq<Entry>, answered: bool)
    | Send(at: Endpoint, m: Message)
    | Receive(at: Endpoint, m: Message, ack: Option<Message>)
    | Scan(at: Endpoint, tick: int)
    | BeginScan(at: Endpoint, tick: int, list: seq<Entry>)
    | ScanItem(at: Endpoint)
    | Leave(at: Endpoint)
    | Crash(at: Endpoint)
    | Admin(at: Endpoint, dto: Dto)

  function Put(s: Cluster, at: Endpoint, n: Node): Cluster {
    s.(nodes := s.nodes[at := n])
  }

  function Emit(s: Cluster, m: Message): Cluster {
    s.(soup := s.soup + {m})
  }

  /** The introducer's side of a join: merge the request, then snapshot. */
  function Greeted(n: Node, ask: seq<Entry>, now: int): Node {
    Snapped(Heard(n, ask, now), now)
  }

  /** The joiner's side: apply the introducer's configuration, merge its list, start the protocol. */
  function Welcomed(n: Node, cfg: Dto, reply: seq<Entry>, now: int): Node {
    Started(Heard(Configured(Snapped(n, now), cfg), reply, now))
  }

  ghost predicate BootNext(s: Cluster, id: NodeId, cfg: Config, s': Cluster) {
    && id.ep !in s.nodes && (id.ep in s.boots ==> id.ts > s.boots[id.ep]) && ValidKnobs(cfg.knobs)
    && s' == s.(boots := s.boots[id.ep := id.ts], nodes := s.nodes[id.ep := BootNode(id, cfg, s.clock)])
  }

  /** One exchange with an introducer. The request lists what the joiner holds; if the answer is lost,
      the introducer has merged the request all the same. */
  ghost predicate JoinNext(
    s: Cluster, at: Endpoint, via: Endpoint, ask: seq<Entry>, reply: seq<Entry>, answered: bool, s': Cluster)
  {
    && at in s.nodes && via in s.nodes && at != via
    && !s.nodes[at].started && s.nodes[via].started && s.nodes[via].booted.bootstrap.isIntroducer
    && Listing(ask, Snapped(s.nodes[at], s.clock).store.table)
    && var i := Greeted(s.nodes[via], ask, s.clock);
       Listing(reply, i.store.table)
       && s' == Put(Put(s, via, i), at,
            if answered then Welcomed(s.nodes[at], ToDto(i.cfg), reply, s.clock)
            else Snapped(s.nodes[at], s.clock))
  }

  /** A message that one of the node's loops may send: its rows, among them a peer's, and that loop's copy of
      the configuration. */
  ghost predicate Sendable(n: Node, m: Message) {
    && Listing(m.list, n.store.table) && (exists e :: e in m.list && e.id != n.store.self) && !m.kind.Ack?
    && m.cfg in Copies(n.loops, if m.kind.Ping? then PINGACK else GOSSIP)
  }

  /** An acknowledgement of `m`; only ping loops acknowledge. */
  ghost predicate Answers(n: Node, m: Message, a: Message) {
    && m.kind.Ping? && a.kind.Ack? && a.nonce == m.nonce
    && Listing(a.list, n.store.table) && a.cfg in Copies(n.loops, PINGACK)
  }

  ghost predicate SendNext(s: Cluster, at: Endpoint, m: Message, s': Cluster) {
    && at in s.nodes && s.nodes[at].started
    && var n := Snapped(s.nodes[at], s.clock);
       Sendable(n, m) && s' == Emit(Put(s, at, n), m)
  }

  ghost predicate ReceiveNext(s: Cluster, at: Endpoint, m: Message, ack: Option<Message>, s': Cluster) {
    && at in s.nodes && s.nodes[at].started && m in s.soup
    && var n := Received(s.nodes[at], m, s.clock);
       match ack
       case None => s' == Put(s, at, n)
       case Some(a) =>
         && !HasLeft(s.nodes[at].store) && Answers(Snapped(n, s.clock), m, a)
         && s' == Emit(Put(s, at, Snapped(n, s.clock)), a)
  }

  ghost predicate ScanNext(s: Cluster, at: Endpoint, tick: int, s': Cluster) {
    && at in s.nodes && s.nodes[at].work.Idle? && tick <= s.clock
    && match ScanOnce(s.nodes[at].store, s.clock, tick, s.nodes[at].timers)
       case Exit => s' == s.(nodes := s.nodes - {at})
       case Scanned(r) => s' == Put(s, at, s.nodes[at].(store := r))
  }

  ghost predicate BeginScanNext(s: Cluster, at: Endpoint, tick: int, list: seq<Entry>, s': Cluster) {
    && at in s.nodes && s.nodes[at].work.Idle? && tick <= s.clock && !HasLeft(s.nodes[at].store)
    && var n := Snapped(s.nodes[at], s.clock);
       Listing(list, n.store.table)
       && s' == Put(s, at, n.(work := if list == [] then Idle else Sweeping(tick, n.timers, list)))
  }

  ghost predicate ScanItemNext(s: Cluster, at: Endpoint, s': Cluster) {
    && at in s.nodes && s.nodes[at].work.Sweeping? && s.nodes[at].work.todo != []
    && s' == Put(s, at, ItemSwept(s.nodes[at], s.clock))
  }

  ghost predicate Next(s: Cluster, step: Step, s': Cluster) {
    match step
    case Advance(to) => to >= s.clock && s' == s.(clock := to)
    case Boot(id, cfg) => BootNext(s, id, cfg, s')
    case Join(at, via, ask, reply, answered) => JoinNext(s, at, via, ask, reply, answered, s')
    case Send(at, m) => SendNext(s, at, m, s')
    case Receive(at, m, ack) => ReceiveNext(s, at, m, ack, s')
    case Scan(at, tick) => ScanNext(s, at, tick, s')
    case BeginScan(at, tick, list) => BeginScanNext(s, at, tick, list, s')
    case ScanItem(at) => ScanItemNext(s, at, s')
    case Leave(at) => at in s.nodes && s.nodes[at].started && s' == Put(s, at, Departed(s.nodes[at], s.clock))
    case Crash(at) => at in s.nodes && s' == s.(nodes := s.nodes - {at})
    case Admin(at, dto) =>
      at in s.nodes && s.nodes[at].started
      && s' == Put(s, at, Configured(s.nodes[at], Renumbered(s.nodes[at].cfg, dto)))
  }

  /** The endpoints whose nodes take part in a step. */
  function Actors(step: Step): set<Endpoint> {
    match step
    case Advance(_) => {}
    case Boot(id, _) => {id.ep}
    case Join(at, via, _, _, _) => {at, via}
    case Send(at, _) => {at}
    case Receive(at, _, _) => {at}
    case Scan(at, _) => {at}
    case BeginScan(at, _, _) => {at}
    case ScanItem(at) => {at}
    case Leave(at) => {at}
    case Crash(at) => {at}
    case Admin(at, _) => {at}
  }

  /** Who and what a step needs to be there; and only a boot brings in a node. */
  lemma StepSites(s: Cluster, step: Step, s': Cluster)
    requires Next(s, step, s')
    ensures step.Receive? ==> step.at in s.nodes && step.m in s.soup
    ensures step.Join? ==> step.at in s.nodes && step.via in s.nodes && step.at != step.via
    ensures step.Scan? || step.ScanItem? || step.Send? || step.BeginScan? || step.Leave? || step.Admin? ==> step.at in s.nodes
    ensures forall at | at in s'.nodes && at !in s.nodes :: step.Boot? && step.id.ep == at && s'.nodes[at].store.self == step.id
    ensures !step.Crash? && !step.Scan? ==> Actors(step) <= s'.nodes.Keys
    ensures step.Boot? ==> step.id.ep !in s.nodes && (step.id.ep in s.boots ==> s.boots[step.id.ep] < step.id.ts)
  {
  }

  /** What a join puts in place. */
  lemma JoinSites(s: Cluster, step: Step, s': Cluster)
    requires step.Join? && Next(s, step, s')
    ensures step.at in s.nodes && step.via in s.nodes && step.at in s'.nodes && step.via in s'.nodes && step.at != step.via
    ensures !s.nodes[step.at].started && s.nodes[step.via].started
    ensures var i := Greeted(s.nodes[step.via], step.ask, s.clock);
      && Listing(step.ask, Snapped(s.nodes[step.at], s.clock).store.table)
      && s'.nodes[step.via] == i && Listing(step.reply, i.store.table)
      && (step.answered ==> s'.nodes[step.at] == Welcomed(s.nodes[step.at], ToDto(i.cfg), step.reply, s.clock))
  {
  }

  lemma ItemSites(s: Cluster, step: Step, s': Cluster)
    requires step.ScanItem? && Next(s, step, s')
    ensures step.at in s.nodes && s.nodes[step.at].work.Sweeping? && s.nodes[step.at].work.todo != []
    ensures s' == Put(s, step.at, ItemSwept(s.nodes[step.at], s.clock))
  {
  }

  lemma BystanderOwn(s: Cluster, step: Step, s': Cluster, at: Endpoint)
    requires Next(s, step, s') && at in s.nodes && at !in Actors(step)
    ensures at in s'.nodes && s'.nodes[at] == s.nodes[at]
  {
  }

  lemma BootsStep(s: Cluster, step: Step, s': Cluster, at: Endpoint)
    requires Next(s, step, s')
    ensures at in s.boots ==> at in s'.boots && s'.boots[at] >= s.boots[at]
    ensures at in s.nodes && at in s.boots ==> at in s'.boots && s'.boots[at] == s.boots[at]
    ensures step.Boot? || s'.boots == s.boots
    ensures s'.clock >= s.clock && (step.Advance? || s'.clock == s.clock)
  {
  }

  // ------------------------------ items of split scans ------------------------------

  /** The step acts on the next row of a scan in progress. */
  predicate HasItem(s: Cluster, step: Step) {
    && step.ScanItem? && step.at in s.nodes
    && s.nodes[step.at].work.Sweeping? && s.nodes[step.at].work.todo != []
  }

  /** That row, as the snapshot shows it. */
  function Item(s: Cluster, step: Step): Entry
    requires HasItem(s, step)
  {
    s.nodes[step.at].work.todo[0]
  }

  function ItemVerdict(s: Cluster, step: Step): Verdict
    requires HasItem(s, step)
  {
    var n := s.nodes[step.at];
    Judge(Item(s, step), n.store.self, n.work.tick, n.work.timers)
  }

  /** The verdict, reached on the snapshot, is to mark whatever the table holds by now. */
  predicate Marks(s: Cluster, step: Step) {
    && HasItem(s, step) && ItemVerdict(s, step).Mark?
    && Item(s, step).id.ep in s.nodes[step.at].store.table
  }

  /** What the table holds by now. */
  function Target(s: Cluster, step: Step): Entry
    requires Marks(s, step)
  {
    s.nodes[step.at].store.table[Item(s, step).id.ep]
  }

  /** What a mark writes over the row `x`: the verdict on the snapshot row `e`, and the incarnation of `e`. */
  function Marked(x: Entry, e: Entry, v: Verdict): Entry {
    Sentenced(x, v).(inc := e.inc)
  }

  /** An item marks its row, removes it, or does nothing; and touches no other. */
  lemma ItemEffect(s: Cluster, step: Step, s': Cluster, k: Endpoint)
    requires step.ScanItem? && Next(s, step, s')
    ensures HasItem(s, step) && step.at in s'.nodes
    ensures Get(s'.nodes[step.at].store.table, k) ==
      if k != Item(s, step).id.ep then Get(s.nodes[step.at].store.table, k)
      else if Marks(s, step) then Some(Marked(Target(s, step), Item(s, step), ItemVerdict(s, step)))
      else if ItemVerdict(s, step).Discard? then None
      else Get(s.nodes[step.at].store.table, k)
  {
  }

  ghost predicate Init(s: Cluster) {
    s.boots == map[] && s.nodes == map[] && s.soup == {}
  }

  datatype Run = Run(states: seq<Cluster>, steps: seq<Step>)

  ghost predicate ValidRun(run: Run) {
    && |run.states| == |run.steps| + 1
    && Init(run.states[0])
    && forall i | 0 <= i < |run.steps| :: Next(run.states[i], run.steps[i], run.states[i + 1])
  }

  /** No endpoint boots a second time. */
  ghost predicate OneBoot(run: Run)
    requires |run.states| == |run.steps| + 1
  {
    forall i | 0 <= i < |run.steps| && run.steps[i].Boot? :: run.steps[i].id.ep !in run.states[i].boots
  }

  /** Every scan is one step. */
  ghost predicate AtomicScans(run: Run) {
    forall i | 0 <= i < |run.steps| :: !run.steps[i].BeginScan?
  }
}
