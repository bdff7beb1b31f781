/** The daemon object: one store, one detector, one live configuration and the protocol loops. Its methods
    are what the steps of the cluster do to one node. */
module NodeDaemon {
  import opened Wrappers
  import opened Identity
  import opened Membership
  import opened Scanner
  import opened Settings
  import opened MembershipStore
  import opened SuspicionManager
  import opened Cluster
  import opened Fanout

  /** A message on its way to the endpoint with text `to`. */
  datatype Parcel = Parcel(to: string, m: Message)

  function Receivers(sent: seq<Parcel>): seq<string> {
    seq(|sent|, i requires 0 <= i < |sent| => sent[i].to)
  }

  /** A running protocol loop of either kind. */
  class ProtocolLoop {
    const mode: string
    var cfg: Config
    var copy: Dto

    function Value(): Loop
      reads this
    {
      Loop(mode, cfg, copy)
    }

    constructor (mode: string, c: Config)
      ensures Value() == NewLoop(mode, c)
    {
      this.mode := mode;
      cfg, copy := c, ToDto(c);
    }

    method Reconfigure(next: Config)
      modifies this`cfg
      ensures Value() == old(Value()).(cfg := next)
    {
      cfg := next;
    }

    method SetConfigDto(dto: Dto)
      modifies this`copy
      ensures Value() == old(Value()).(copy := dto)
    {
      copy := dto;
    }

    /** One message for each target: the same one from a gossip loop, a ping with a nonce of its own from
        a ping loop. */
    method Address(targets: seq<string>, list: seq<Entry>, nonces: nat -> u64) returns (sent: seq<Parcel>)
      ensures Receivers(sent) == targets
      ensures forall i | 0 <= i < |sent| ::
        sent[i].m == if mode == GOSSIP then Message(Gossip, 0, list, copy) else Message(Ping, nonces(i), list, copy)
    {
      sent := [];
      for i := 0 to |targets|
        invariant |sent| == i && forall j | 0 <= j < i :: sent[j].to == targets[j]
        invariant forall j | 0 <= j < i ::
          sent[j].m == if mode == GOSSIP then Message(Gossip, 0, list, copy) else Message(Ping, nonces(j), list, copy)
      {
        var m := if mode == GOSSIP then Message(Gossip, 0, list, copy) else Message(Ping, nonces(i), list, copy);
        sent := sent + [Parcel(targets[i], m)];
      }
    }
  }

  class Daemon {
    const st: Store
    const sm: Manager
    const live: LiveConfig
    const booted: Config
    var loopPA: ProtocolLoop?
    var loopGo: ProtocolLoop?
    var started: bool
    /** The loops that were live once. */
    ghost var retired: set<ProtocolLoop>

    ghost function Owned(): set<ProtocolLoop>
      reads this
    {
      retired + (if loopPA == null then {} else {loopPA}) + (if loopGo == null then {} else {loopGo})
    }

    ghost predicate Valid()
      reads this, st
    {
      && st.Valid() && sm.st == st
      && loopPA !in retired && loopGo !in retired && (loopPA == null || loopPA != loopGo)
      && forall l | l in Owned() :: l.mode == PINGACK || l.mode == GOSSIP
    }

    ghost function ValueOf(l: ProtocolLoop?): Option<Loop>
      reads l
    {
      if l == null then None else Some(l.Value())
    }

    ghost function LoopsValue(): Loops
      reads this, loopPA, loopGo, retired
    {
      Loops(ValueOf(loopPA), ValueOf(loopGo), set l | l in retired :: l.Value())
    }

    /** The daemon as a node of the cluster. */
    ghost function Value(): Node
      reads this, st, sm, live, loopPA, loopGo, retired
      requires Valid()
    {
      Node(st.Value(), sm.Timing(), live.cfg, booted, LoopsValue(), started, Idle)
    }

    constructor (id: NodeId, cfg: Config, now: int)
      ensures Valid() && fresh(st) && fresh(sm) && fresh(live) && fresh(Owned())
      ensures Value() == BootNode(id, cfg, now)
    {
      var store := new Store(id, cfg, now);
      st := store;
      sm := new Manager(store, cfg);
      live := new LiveConfig(cfg);
      booted := cfg;
      loopPA, loopGo, retired, started := null, null, {}, false;
      new;
      if cfg.bootstrap.isIntroducer {
        Start();
      }
    }

    /** The end of booting: the protocol of the configuration the process was given. */
    method Start()
      requires Valid()
      modifies this
      ensures Valid() && Value() == Started(old(Value()))
      ensures old(Owned()) <= Owned() && fresh(Owned() - old(Owned()))
    {
      StartLoop(booted);
      started := true;
    }

    method StartLoop(cfg: Config)
      requires Valid()
      modifies this`loopPA, this`loopGo, this`retired
      ensures Valid() && LoopsValue() == StartProtocol(old(LoopsValue()), cfg)
      ensures old(Owned()) <= Owned() && fresh(Owned() - old(Owned()))
      ensures (loopPA == null || loopPA == old(loopPA) || fresh(loopPA)) && (loopGo == null || loopGo == old(loopGo) || fresh(loopGo))
    {
      if cfg.knobs.mode == PINGACK {
        Retire();
        loopPA := new ProtocolLoop(PINGACK, cfg);
      } else if cfg.knobs.mode == GOSSIP {
        Retire();
        loopGo := new ProtocolLoop(GOSSIP, cfg);
      }
    }

    /** Lets go of the live loop, whether it is stopped or merely replaced. */
    method Retire()
      requires Valid()
      modifies this`loopPA, this`loopGo, this`retired
      ensures Valid() && LoopsValue() == Loops(None, None, AllLoops(old(LoopsValue())))
      ensures Owned() == old(Owned()) && loopPA == null && loopGo == null
    {
      retired := Owned();
      loopPA, loopGo := null, null;
      assert LoopsValue().retired == AllLoops(old(LoopsValue()));
    }

    /** Pushes a changed configuration into the running components. */
    method PushRuntime(prev: Config, next: Config)
      requires Valid()
      modifies this`loopPA, this`loopGo, this`retired, loopPA, loopGo, sm, st`config
      ensures Valid() && LoopsValue() == ApplyRuntime(old(LoopsValue()), prev, next)
      ensures old(Owned()) <= Owned() && fresh(Owned() - old(Owned()))
      ensures sm.Timing() == TimersOf(next) && st.Value() == old(st.Value()).(tSuspect := next.knobs.tSuspect)
    {
      TuneLoops(prev, next);
      sm.Reconfigure(next.knobs.tSuspect, next.knobs.tFail, next.knobs.tCleanup);
      st.Reconfigure(next);
      RefreshCopies(ToDto(next));
    }

    method TuneLoops(prev: Config, next: Config)
      requires Valid()
      modifies this`loopPA, this`loopGo, this`retired, loopPA, loopGo
      ensures Valid()
      ensures LoopsValue() ==
        if Restarts(old(LoopsValue()), prev, next) then StartProtocol(old(LoopsValue()), next)
        else Retuned(old(LoopsValue()), next)
      ensures old(Owned()) <= Owned() && fresh(Owned() - old(Owned()))
      ensures (loopPA == null || loopPA == old(loopPA) || fresh(loopPA)) && (loopGo == null || loopGo == old(loopGo) || fresh(loopGo))
    {
      var modeChanged := prev.knobs.mode != next.knobs.mode;
      if next.knobs.mode == PINGACK {
        if modeChanged || loopPA == null {
          StartLoop(next);
        } else {
          loopPA.Reconfigure(next);
        }
      } else if next.knobs.mode == GOSSIP {
        if modeChanged || loopGo == null {
          StartLoop(next);
        } else {
          loopGo.Reconfigure(next);
        }
      }
    }

    /** The live loop's next message carries `dto`. */
    method RefreshCopies(dto: Dto)
      requires Valid()
      modifies loopPA, loopGo
      ensures Valid() && LoopsValue() == Recopied(old(LoopsValue()), dto)
    {
      if loopGo != null {
        loopGo.SetConfigDto(dto);
      }
      if loopPA != null {
        loopPA.SetConfigDto(dto);
      }
    }

    method OnConfigFromWire(dto: Dto)
      requires Valid()
      modifies this`loopPA, this`loopGo, this`retired, loopPA, loopGo, sm, st`config, live
      ensures Valid() && Value() == Configured(old(Value()), dto)
      ensures old(Owned()) <= Owned() && fresh(Owned() - old(Owned()))
    {
      var prev := live.cfg;
      var changed, err := live.ApplyDto(dto);
      if err.Some? || !changed {
        return;
      }
      PushRuntime(prev, live.cfg);
    }

    /** An administrator's change. */
    method Set(dto: Dto) returns (err: Option<string>)
      requires Valid()
      modifies this`loopPA, this`loopGo, this`retired, loopPA, loopGo, sm, st`config, live
      ensures Valid() && Value() == Configured(old(Value()), Renumbered(old(live.cfg), dto))
      ensures err.None? <==> WellFormed(dto)
      ensures err.None? ==>
        && live.cfg.version == (if dto.version > old(live.cfg).version then dto.version else old(live.cfg).version + 1)
        && Carries(dto, live.cfg.knobs)
    {
      var prev := live.cfg;
      var changed;
      changed, err := live.BumpAndApplyLocal(dto);
      ComplaintIffIllFormed(dto);
      if changed {
        PushRuntime(prev, live.cfg);
      }
    }

    /** One message, taken by one of the node's loops, live or retired. The configuration comes first; a node
        that has left hears nothing more; a ping loop acknowledges a ping, with its copy of the
        configuration as it is by then. */
    method OnMessage(loop: ProtocolLoop, m: Message, now: int) returns (reply: Option<Message>)
      requires Valid() && loop in Owned()
      modifies this, loopPA, loopGo, sm, st, live
      ensures Valid()
      ensures var (n, r) := (old(Value()), Received(old(Value()), m, now));
        if m.kind.Ping? && loop.mode == PINGACK && !HasLeft(n.store)
        then Value() == Snapped(r, now) && reply.Some? && Answers(Value(), m, reply.value)
        else Value() == r && reply == None
    {
      hide ByEndpoint, EndpointToString, Refresh, Configured, Answers;
      reply := None;
      OnConfigFromWire(m.cfg);
      var left := CheckLeft(now);
      if left {
        return;
      }
      st.MergeFullList(m.list, now);
      if m.kind.Ping? && loop.mode == PINGACK {
        var ack := Acknowledge(loop, m, now);
        reply := Some(ack);
      }
    }

    method Acknowledge(loop: ProtocolLoop, m: Message, now: int) returns (ack: Message)
      requires Valid() && loop in Owned() && loop.mode == PINGACK && m.kind.Ping?
      modifies st`entries
      ensures Valid() && Value() == Snapped(old(Value()), now) && Answers(Value(), m, ack)
    {
      hide ByEndpoint, EndpointToString, Refresh, Copies, Listing;
      var list, _ := st.Snapshot(now);
      ack := Message(Ack, m.nonce, list, loop.copy);
      OwnedLoop(loop);
    }

    /** Every loop of the daemon is one of the node's, with its copy among them. */
    lemma OwnedLoop(loop: ProtocolLoop)
      requires Valid() && loop in Owned()
      ensures loop.Value() in AllLoops(LoopsValue()) && loop.copy in Copies(LoopsValue(), loop.mode)
    {
      if loop in retired {
        assert loop.Value() in LoopsValue().retired;
      }
      assert loop.Value().copy == loop.copy;
    }

    /** Snapshots, and looks for the own row among the copies. */
    method CheckLeft(now: int) returns (left: bool)
      requires Valid()
      modifies st`entries
      ensures Valid() && left == HasLeft(old(st.Value()))
      ensures Value() == if left then old(Value()) else Snapped(old(Value()), now)
    {
      hide ByEndpoint, EndpointToString;
      var list, id := st.Snapshot(now);
      for i := 0 to |list|
        invariant forall j | 0 <= j < i :: !(list[j].id == id && list[j].state == Left)
      {
        if list[i].id == id && list[i].state == Left {
          OwnListed(list, st.Value(), i);
          return true;
        }
      }
      NotLeft(list, st.Value());
      return false;
    }

    /** A request to leave: the next incarnation, marked Left. */
    method LeaveGroup(now: int)
      requires Valid()
      modifies st`entries, st`version
      ensures Valid() && Value() == Departed(old(Value()), now)
    {
      hide ByEndpoint, EndpointToString;
      var list, _ := st.Snapshot(now);
      ghost var r := st.Value();
      TextLookup(st.entries, st.self.ep);
      for i := 0 to |list|
        invariant st.Valid() && st.self == r.self
        invariant (forall j | 0 <= j < i :: list[j].id != st.self) ==> st.Value() == r
        invariant (exists j :: 0 <= j < i && list[j].id == st.self) ==>
          r.self.ep in r.table && r.table[r.self.ep].id == r.self
          && st.Value() == Apply(r, r.self, r.table[r.self.ep].inc + 1, Left, now)
      {
        if list[i].id == st.self {
          assert forall j | 0 <= j < i :: list[j].id.ep != list[i].id.ep;
          st.ApplyLocked(st.self, list[i].inc + 1, Left, now);
        }
      }
      if r.self.ep in r.table {
        assert r.table[r.self.ep] in list;
      }
    }

    /** The introducer's side of a join. */
    method HandleJoin(ask: seq<Entry>, now: int) returns (reply: seq<Entry>, cfg: Dto)
      requires Valid()
      modifies st`entries, st`version
      ensures Valid() && Value() == Greeted(old(Value()), ask, now)
      ensures Listing(reply, Value().store.table) && cfg == ToDto(Value().cfg)
    {
      hide ByEndpoint, EndpointToString, Refresh, Listing;
      st.MergeFullList(ask, now);
      var id;
      reply, id := st.Snapshot(now);
      cfg := ToDto(live.cfg);
    }

    /** The joiner's side: the request is a snapshot, and the answer is taken in on top of it. */
    method AskToJoin(now: int) returns (ask: seq<Entry>)
      requires Valid()
      modifies st`entries
      ensures Valid() && Value() == Snapped(old(Value()), now) && Listing(ask, Value().store.table)
    {
      var id;
      ask, id := st.Snapshot(now);
    }

    method FinishJoin(reply: seq<Entry>, cfg: Dto, now: int)
      requires Valid()
      modifies this, loopPA, loopGo, sm, st, live
      ensures Valid()
      ensures Value() == Started(Heard(Configured(old(Value()), cfg), reply, now))
    {
      hide ByEndpoint, EndpointToString, Refresh, Configured, StartProtocol;
      OnConfigFromWire(cfg);
      st.MergeFullList(reply, now);
      Start();
    }

    /** A stamped snapshot, and whom to send it to. `draw` stands for the random permutation. */
    method Choose(fanout: int, draw: nat -> seq<nat>, now: int) returns (list: seq<Entry>, targets: seq<string>)
      requires Valid() && forall n: nat :: Permutation(draw(n), n)
      modifies st`entries
      ensures Valid() && Value() == Snapped(old(Value()), now) && Listing(list, Value().store.table)
      ensures targets != [] ==> exists e :: e in list && e.id != Value().store.self
      ensures var r := Value().store;
        r.self.ep in r.table && r.table[r.self.ep].id == r.self ==> GoodTargets(targets, r.table, r.self, fanout)
    {
      hide ByEndpoint, EndpointToString, Refresh, Listing, GoodTargets, Permutation, PeerRows, Texts;
      var id;
      list, id := st.Snapshot(now);
      assert LoopsValue() == old(LoopsValue());
      var peers := ResolvePeers(list, id);
      targets := SelectTargets(peers, draw(|peers|), fanout);
      PeersAreListed(list, id);
      ghost var r := st.Value();
      TextLookup(st.entries, id.ep);
      if r.self.ep in r.table && r.table[r.self.ep].id == r.self {
        TargetsAreGood(list, r.table, r.self, draw(|peers|), fanout, targets);
      }
    }

    /** One tick of a protocol loop, live or retired: a snapshot, sent with the loop's copy of the
        configuration to as many members as the loop's own fan-out and the table allow. `nonces` stands for
        the random numbers of pings. */
    method Announce(loop: ProtocolLoop, draw: nat -> seq<nat>, nonces: nat -> u64, now: int)
      returns (sent: seq<Parcel>)
      requires Valid() && loop in Owned() && forall n: nat :: Permutation(draw(n), n)
      modifies st`entries
      ensures Valid() && Value() == Snapped(old(Value()), now)
      ensures forall i | 0 <= i < |sent| :: Sendable(Value(), sent[i].m) && sent[i].m.cfg == loop.copy
      ensures var r := Value().store;
        r.self.ep in r.table && r.table[r.self.ep].id == r.self ==>
          GoodTargets(Receivers(sent), r.table, r.self,
                      if loop.mode == GOSSIP then loop.cfg.knobs.gossipFanout else loop.cfg.knobs.pingFanout)
    {
      hide ByEndpoint, EndpointToString, Refresh, Listing, Copies, GoodTargets, Permutation;
      var list, targets := Choose(FanoutOf(loop.Value()), draw, now);
      sent := loop.Address(targets, list, nonces);
      OwnedLoop(loop);
    }

    /** One tick of the detector. */
    method Tick(tick: int, now: int) returns (exit: bool)
      requires Valid()
      modifies st`entries, st`version
      ensures Valid()
      ensures match ScanOnce(old(st.Value()), now, tick, old(sm.Timing()))
        case Exit => exit
        case Scanned(r) => !exit && Value() == old(Value()).(store := r)
    {
      exit := sm.ScanPass(tick, now, sm.tSuspect, sm.tFail, sm.tCleanup);
    }
  }
}
