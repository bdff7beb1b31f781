/** The versioned configuration every node holds, and the complete copy of its cluster-wide part
    that rides on every message. */
module Settings {
  import opened Wrappers

  const PINGACK := "pingack"
  const GOSSIP := "gossip"

  /** The cluster-wide part. Durations are nanoseconds. */
  datatype Knobs = Knobs(
    mode: string, pingEvery: int, pingFanout: int, gossipPeriod: int, gossipFanout: int,
    tSuspect: int, tFail: int, tCleanup: int, dropRate: real)

  /** The node-local part, never sent. */
  datatype Bootstrap = Bootstrap(
    selfAddr: string, bindAddr: string, introducerBindAddr: string,
    introducer: string, isIntroducer: bool, adminHttp: string)

  datatype Config = Config(version: int, knobs: Knobs, bootstrap: Bootstrap)

  /** A duration as it arrives: absent, not a duration, or a value. */
  datatype DurationText = Absent | Malformed | Nanos(ns: int)

  datatype Dto = Dto(
    version: int, mode: string, pingEvery: DurationText, pingFanout: int,
    gossipPeriod: DurationText, gossipFanout: int, tSuspect: DurationText,
    tFail: DurationText, tCleanup: DurationText, dropRate: real)

  predicate ValidKnobs(k: Knobs) {
    && (k.mode == PINGACK || k.mode == GOSSIP)
    && k.pingEvery > 0 && k.pingFanout > 0 && k.gossipPeriod > 0 && k.gossipFanout > 0
    && k.tSuspect >= 0 && k.tFail > 0 && k.tCleanup > 0
    && 0.0 <= k.dropRate <= 1.0
  }

  predicate Positive(d: DurationText) {
    d.Nanos? && d.ns > 0
  }

  predicate WellFormed(d: Dto) {
    && (d.mode == PINGACK || d.mode == GOSSIP)
    && Positive(d.pingEvery) && d.pingFanout > 0 && Positive(d.gossipPeriod) && d.gossipFanout > 0
    && d.tSuspect.Nanos? && d.tSuspect.ns >= 0 && Positive(d.tFail) && Positive(d.tCleanup)
    && 0.0 <= d.dropRate <= 1.0
  }

  function ToDto(c: Config): Dto {
    var k := c.knobs;
    Dto(c.version, k.mode, Nanos(k.pingEvery), k.pingFanout, Nanos(k.gossipPeriod), k.gossipFanout,
        Nanos(k.tSuspect), Nanos(k.tFail), Nanos(k.tCleanup), k.dropRate)
  }

  function KnobsOf(d: Dto): Knobs
    requires WellFormed(d)
  {
    Knobs(d.mode, d.pingEvery.ns, d.pingFanout, d.gossipPeriod.ns, d.gossipFanout,
          d.tSuspect.ns, d.tFail.ns, d.tCleanup.ns, d.dropRate)
  }

  /** The copy and the knobs say the same, field by field. */
  predicate Carries(d: Dto, k: Knobs) {
    && d.mode == k.mode && d.dropRate == k.dropRate
    && d.pingEvery == Nanos(k.pingEvery) && d.pingFanout == k.pingFanout
    && d.gossipPeriod == Nanos(k.gossipPeriod) && d.gossipFanout == k.gossipFanout
    && d.tSuspect == Nanos(k.tSuspect) && d.tFail == Nanos(k.tFail) && d.tCleanup == Nanos(k.tCleanup)
  }

  predicate Accepts(c: Config, d: Dto) {
    d.version > c.version && WellFormed(d)
  }

  /** Adopting what the network offers: all of it or nothing. */
  function Adopted(c: Config, d: Dto): Config {
    if Accepts(c, d) then Config(d.version, KnobsOf(d), c.bootstrap) else c
  }

  /** An administrator's change is renumbered above the current version unless it already is. */
  function Renumbered(c: Config, d: Dto): Dto {
    if d.version <= c.version then d.(version := c.version + 1) else d
  }

  /** What the receiver of a change sees wrong with it first, in the order the fields are checked. */
  function Complaint(d: Dto): Option<string> {
    if d.mode == "" then Some("mode missing")
    else if d.mode != PINGACK && d.mode != GOSSIP then Some("invalid mode")
    else if d.pingEvery.Absent? then Some("ping_every missing")
    else if !Positive(d.pingEvery) then Some("invalid ping_every")
    else if d.gossipPeriod.Absent? then Some("gossip_period missing")
    else if !Positive(d.gossipPeriod) then Some("invalid gossip_period")
    else if d.tSuspect.Absent? then Some("t_suspect missing")
    else if d.tSuspect.Malformed? || d.tSuspect.ns < 0 then Some("invalid t_suspect")
    else if d.tFail.Absent? then Some("t_fail missing")
    else if !Positive(d.tFail) then Some("invalid t_fail")
    else if d.tCleanup.Absent? then Some("t_cleanup missing")
    else if !Positive(d.tCleanup) then Some("invalid t_cleanup")
    else if d.pingFanout <= 0 then Some("ping_fanout must be > 0")
    else if d.gossipFanout <= 0 then Some("gossip_fanout must be > 0")
    else if d.dropRate < 0.0 || d.dropRate > 1.0 then Some("drop_rate_recv must be in [0,1]")
    else None
  }

  /** A node's live configuration, updated in place. */
  class LiveConfig {
    var cfg: Config

    constructor (c: Config)
      ensures cfg == c
    {
      cfg := c;
    }

    method ApplyDto(dto: Dto) returns (changed: bool, err: Option<string>)
      modifies this
      ensures cfg == Adopted(old(cfg), dto)
      ensures changed <==> dto.version > old(cfg).version && WellFormed(dto)
      ensures changed ==> cfg.version == dto.version && Carries(dto, cfg.knobs) && cfg.bootstrap == old(cfg).bootstrap
      ensures !changed ==> cfg == old(cfg)
      ensures err == if dto.version > old(cfg).version then Complaint(dto) else None
    {
      changed, err := false, None;
      var next := cfg;
      if dto.version <= cfg.version { return; }
      next := next.(version := dto.version);

      if dto.mode == "" { err := Some("mode missing"); return; }
      if dto.mode != PINGACK && dto.mode != GOSSIP { err := Some("invalid mode"); return; }
      next := next.(knobs := next.knobs.(mode := dto.mode));

      if dto.pingEvery.Absent? { err := Some("ping_every missing"); return; }
      if dto.pingEvery.Malformed? || dto.pingEvery.ns <= 0 { err := Some("invalid ping_every"); return; }
      next := next.(knobs := next.knobs.(pingEvery := dto.pingEvery.ns));

      if dto.gossipPeriod.Absent? { err := Some("gossip_period missing"); return; }
      if dto.gossipPeriod.Malformed? || dto.gossipPeriod.ns <= 0 { err := Some("invalid gossip_period"); return; }
      next := next.(knobs := next.knobs.(gossipPeriod := dto.gossipPeriod.ns));

      if dto.tSuspect.Absent? { err := Some("t_suspect missing"); return; }
      if dto.tSuspect.Malformed? || dto.tSuspect.ns < 0 { err := Some("invalid t_suspect"); return; }
      next := next.(knobs := next.knobs.(tSuspect := dto.tSuspect.ns));

      if dto.tFail.Absent? { err := Some("t_fail missing"); return; }
      if dto.tFail.Malformed? || dto.tFail.ns <= 0 { err := Some("invalid t_fail"); return; }
      next := next.(knobs := next.knobs.(tFail := dto.tFail.ns));

      if dto.tCleanup.Absent? { err := Some("t_cleanup missing"); return; }
      if dto.tCleanup.Malformed? || dto.tCleanup.ns <= 0 { err := Some("invalid t_cleanup"); return; }
      next := next.(knobs := next.knobs.(tCleanup := dto.tCleanup.ns));

      if dto.pingFanout <= 0 { err := Some("ping_fanout must be > 0"); return; }
      next := next.(knobs := next.knobs.(pingFanout := dto.pingFanout));
      if dto.gossipFanout <= 0 { err := Some("gossip_fanout must be > 0"); return; }
      next := next.(knobs := next.knobs.(gossipFanout := dto.gossipFanout));

      if dto.dropRate < 0.0 || dto.dropRate > 1.0 { err := Some("drop_rate_recv must be in [0,1]"); return; }
      next := next.(knobs := next.knobs.(dropRate := dto.dropRate));

      // the central validation that follows in the source finds nothing left to reject
      assert ValidKnobs(next.knobs);
      cfg := next;
      changed := true;
    }

    method BumpAndApplyLocal(dto: Dto) returns (changed: bool, err: Option<string>)
      modifies this
      ensures cfg == Adopted(old(cfg), Renumbered(old(cfg), dto))
      ensures changed <==> WellFormed(dto)
      ensures changed ==>
        && cfg.version == (if dto.version > old(cfg).version then dto.version else old(cfg).version + 1)
        && Carries(dto, cfg.knobs) && cfg.bootstrap == old(cfg).bootstrap
      ensures !changed ==> cfg == old(cfg)
      ensures err == Complaint(dto)
    {
      var numbered := dto;
      if numbered.version <= cfg.version {
        numbered := numbered.(version := cfg.version + 1);
      }
      changed, err := ApplyDto(numbered);
    }
  }

  lemma ComplaintIffIllFormed(d: Dto)
    ensures Complaint(d).None? <==> WellFormed(d)
  {
  }

  /** What can be wrong with a copy, in the order in which the receiver looks. */
  function Faults(d: Dto): seq<(bool, string)> {
    [(d.mode == "", "mode missing"),
     (d.mode != PINGACK && d.mode != GOSSIP, "invalid mode"),
     (d.pingEvery == Absent, "ping_every missing"), (!Positive(d.pingEvery), "invalid ping_every"),
     (d.gossipPeriod == Absent, "gossip_period missing"), (!Positive(d.gossipPeriod), "invalid gossip_period"),
     (d.tSuspect == Absent, "t_suspect missing"), (!(d.tSuspect.Nanos? && d.tSuspect.ns >= 0), "invalid t_suspect"),
     (d.tFail == Absent, "t_fail missing"), (!Positive(d.tFail), "invalid t_fail"),
     (d.tCleanup == Absent, "t_cleanup missing"), (!Positive(d.tCleanup), "invalid t_cleanup"),
     (d.pingFanout <= 0, "ping_fanout must be > 0"), (d.gossipFanout <= 0, "gossip_fanout must be > 0"),
     (!(0.0 <= d.dropRate <= 1.0), "drop_rate_recv must be in [0,1]")]
  }

  /** The complaint is about the first fault there is. */
  lemma FirstComplaint(d: Dto, i: nat)
    requires i < |Faults(d)| && Faults(d)[i].0 && forall j | 0 <= j < i :: !Faults(d)[j].0
    ensures Complaint(d) == Some(Faults(d)[i].1)
  {
    var f := Faults(d);
    assert i > 0 ==> !f[0].0;
    assert i > 1 ==> !f[1].0;
    assert i > 2 ==> !f[2].0;
    assert i > 3 ==> !f[3].0;
    assert i > 4 ==> !f[4].0;
    assert i > 5 ==> !f[5].0;
    assert i > 6 ==> !f[6].0;
    assert i > 7 ==> !f[7].0;
    assert i > 8 ==> !f[8].0;
    assert i > 9 ==> !f[9].0;
    assert i > 10 ==> !f[10].0;
    assert i > 11 ==> !f[11].0;
    assert i > 12 ==> !f[12].0;
    assert i > 13 ==> !f[13].0;
  }

  /** Sending and adopting loses nothing: a valid configuration is always well formed on the wire,
      and a configuration that adopted a message forwards exactly that message. */
  lemma DtoRoundTrip(c: Config, from: Config, d: Dto)
    ensures ValidKnobs(from.knobs) <==> WellFormed(ToDto(from))
    ensures ToDto(from).version == from.version && Carries(ToDto(from), from.knobs)
    ensures ValidKnobs(from.knobs) && from.version > c.version ==>
      Adopted(c, ToDto(from)) == Config(from.version, from.knobs, c.bootstrap)
    ensures Accepts(c, d) ==> ToDto(Adopted(c, d)) == d && ValidKnobs(Adopted(c, d).knobs)
  {
  }

  datatype Change = Remote(dto: Dto) | Local(dto: Dto)

  function Changed(c: Config, change: Change): Config {
    match change
    case Remote(d) => Adopted(c, d)
    case Local(d) => Adopted(c, Renumbered(c, d))
  }

  function ChangedBy(c: Config, changes: seq<Change>): Config
    decreases |changes|
  {
    if changes == [] then c else ChangedBy(Changed(c, changes[0]), changes[1..])
  }

  /** Every sequence of remote and local changes keeps a valid configuration valid, never touches the
      bootstrap part, never lowers the version, and leaves the knobs alone while the version stands. */
  lemma {:induction false} ChangesKeep(c: Config, changes: seq<Change>)
    requires ValidKnobs(c.knobs)
    ensures var z := ChangedBy(c, changes);
      && ValidKnobs(z.knobs) && z.bootstrap == c.bootstrap && z.version >= c.version
      && (z.version == c.version ==> z == c)
    decreases |changes|
  {
    if changes == [] {
    } else {
      ChangesKeep(Changed(c, changes[0]), changes[1..]);
    }
  }

  // ------------------------------ the protocol loops ------------------------------

  /** A protocol loop: its protocol, the configuration it was started or last retuned with, and the copy it
      puts on its messages. */
  datatype Loop = Loop(mode: string, cfg: Config, copy: Dto)

  /** The two loop pointers of a node. `retired` holds the loops that are no longer the live one: a stopped
      loop still finishes the message or tick it is busy with, and a loop replaced by one of its own kind is
      never stopped at all. Nothing retunes a retired loop. */
  datatype Loops = Loops(pingack: Option<Loop>, gossip: Option<Loop>, retired: set<Loop>)

  function NewLoop(mode: string, c: Config): Loop {
    Loop(mode, c, ToDto(c))
  }

  function FanoutOf(l: Loop): int {
    if l.mode == GOSSIP then l.cfg.knobs.gossipFanout else l.cfg.knobs.pingFanout
  }

  function Held(l: Option<Loop>): set<Loop> {
    if l.Some? then {l.value} else {}
  }

  function Live(l: Loops): set<Loop> {
    Held(l.pingack) + Held(l.gossip)
  }

  function AllLoops(l: Loops): set<Loop> {
    l.retired + Live(l)
  }

  /** The copies that loops of one protocol put on their messages. */
  function Copies(l: Loops, mode: string): set<Dto> {
    set r | r in AllLoops(l) && r.mode == mode :: r.copy
  }

  function Cached(l: Loops): set<Dto> {
    set r | r in AllLoops(l) :: r.copy
  }

  /** Starting a protocol retires whatever loop was live. */
  function StartProtocol(l: Loops, c: Config): Loops {
    if c.knobs.mode == PINGACK then Loops(Some(NewLoop(PINGACK, c)), None, AllLoops(l))
    else if c.knobs.mode == GOSSIP then Loops(None, Some(NewLoop(GOSSIP, c)), AllLoops(l))
    else l
  }

  /** The live loop of the configuration's protocol runs with it from now on. */
  function Retuned(l: Loops, c: Config): Loops {
    if c.knobs.mode == PINGACK && l.pingack.Some? then l.(pingack := Some(l.pingack.value.(cfg := c)))
    else if c.knobs.mode == GOSSIP && l.gossip.Some? then l.(gossip := Some(l.gossip.value.(cfg := c)))
    else l
  }

  function Recopied(l: Loops, d: Dto): Loops {
    l.(pingack := if l.pingack.Some? then Some(l.pingack.value.(copy := d)) else None,
       gossip := if l.gossip.Some? then Some(l.gossip.value.(copy := d)) else None)
  }

  predicate Restarts(l: Loops, prev: Config, next: Config) {
    || next.knobs.mode != prev.knobs.mode
    || (next.knobs.mode == PINGACK && l.pingack.None?)
    || (next.knobs.mode == GOSSIP && l.gossip.None?)
  }

  /** A changed configuration restarts the protocol if its mode changed or its loop is missing, retunes the
      loop otherwise, and refreshes the cached copies. */
  function ApplyRuntime(l: Loops, prev: Config, next: Config): Loops {
    Recopied(if Restarts(l, prev, next) then StartProtocol(l, next) else Retuned(l, next), ToDto(next))
  }

  /** At most one loop is live, each pointer holds a loop of its own protocol, and every loop is one of the
      protocol of the configuration it runs with, which it puts on its messages. */
  ghost predicate Wired(l: Loops) {
    && (l.pingack.None? || l.gossip.None?)
    && (l.pingack.Some? ==> l.pingack.value.mode == PINGACK)
    && (l.gossip.Some? ==> l.gossip.value.mode == GOSSIP)
    && forall r | r in AllLoops(l) :: r == NewLoop(r.cfg.knobs.mode, r.cfg)
  }

  /** Nothing a loop ever caches comes from elsewhere than a configuration the node held. */
  lemma CachedProvenance(l: Loops, prev: Config, next: Config)
    ensures Cached(ApplyRuntime(l, prev, next)) <= Cached(l) + {ToDto(next)}
    ensures Cached(StartProtocol(l, next)) <= Cached(l) + {ToDto(next)}
  {
  }

  /** After a change exactly one loop is live, that of the new mode, running with the new configuration and
      carrying it on its messages. A change that keeps the mode of a live loop keeps the loop, and retires
      none; any other retires whatever was live, as it was. */
  lemma RuntimeIsCurrent(l: Loops, prev: Config, next: Config)
    requires ValidKnobs(next.knobs) && Wired(l)
    ensures var z := ApplyRuntime(l, prev, next);
      && Wired(z) && Live(z) == {NewLoop(next.knobs.mode, next)}
      && z.retired ==
        if next.knobs.mode == prev.knobs.mode && exists o :: o in Live(l) && o.mode == next.knobs.mode
        then l.retired else l.retired + Live(l)
  {
  }

  lemma StartIsCurrent(l: Loops, c: Config)
    requires ValidKnobs(c.knobs) && Wired(l)
    ensures var z := StartProtocol(l, c);
      Wired(z) && Live(z) == {NewLoop(c.knobs.mode, c)} && z.retired == AllLoops(l)
  {
  }
}
