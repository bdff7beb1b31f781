/** The timed detector as a value: what one scan decides for each row, and what it leaves of the table. */
module Scanner {
  import opened Wrappers
  import opened Identity
  import opened Membership

  /** `suspect == 0` disables suspicion. */
  datatype Timers = Timers(suspect: int, fail: int, cleanup: int)

  datatype Verdict = Keep | Mark(state: State) | Discard

  /** The verdict of a scan at `tick` on a row of the table of `self`. */
  function Judge(e: Entry, self: NodeId, tick: int, t: Timers): Verdict {
    var age := tick - e.last;
    if e.state == Left && age >= t.cleanup then Discard
    else if e.id == self then Keep
    else if t.suspect != 0 then
      if age >= t.suspect + t.fail + t.cleanup then Discard
      else if age >= t.suspect + t.fail && (e.state == Alive || e.state == Suspect) then Mark(Failed)
      else if age >= t.suspect && e.state == Alive then Mark(Suspect)
      else Keep
    else
      if age >= t.fail + t.cleanup then Discard
      else if age >= t.fail && e.state != Failed then Mark(Failed)
      else Keep
  }

  function Sentenced(e: Entry, v: Verdict): Entry {
    if v.Mark? then e.(state := v.state) else e
  }

  /** What becomes of one row. */
  function SweepRow(e: Entry, self: NodeId, tick: int, t: Timers): Option<Entry> {
    var v := Judge(e, self, tick, t);
    if v.Discard? then None else Some(Sentenced(e, v))
  }

  function SweepTable(table: Table, self: NodeId, tick: int, t: Timers): Table {
    map k | k in table && SweepRow(table[k], self, tick, t).Some? :: SweepRow(table[k], self, tick, t).value
  }

  /** The endpoints whose rows the scan changes or discards. */
  function Touched(table: Table, self: NodeId, tick: int, t: Timers): set<Endpoint> {
    set k | k in table && Judge(table[k], self, tick, t) != Keep
  }

  function Sweep(r: Replica, tick: int, t: Timers): Replica {
    r.(table := SweepTable(r.table, r.self, tick, t),
       version := r.version + |Touched(r.table, r.self, tick, t)|)
  }

  /** A scan ends the process once the node has left for long enough, does nothing while it
      waits for that, and otherwise sweeps the table. */
  datatype Outcome = Exit | Scanned(store: Replica)

  predicate HasLeft(r: Replica) {
    r.self.ep in r.table && r.table[r.self.ep].id == r.self && r.table[r.self.ep].state == Left
  }

  function Scan(r: Replica, tick: int, t: Timers): Outcome {
    if HasLeft(r) then
      if tick - r.table[r.self.ep].last >= t.cleanup then Exit else Scanned(r)
    else Scanned(Sweep(r, tick, t))
  }

  /** One pass of the detector: snapshot, which stamps the own row at `now`, then scan as of `tick`. */
  function ScanOnce(r: Replica, now: int, tick: int, t: Timers): Outcome {
    Scan(Refresh(r, now), tick, t)
  }

  function ThenScan(o: Outcome, now: int, tick: int, t: Timers): Outcome {
    match o
    case Exit => Exit
    case Scanned(r) => ScanOnce(r, now, tick, t)
  }

  function TableOf(o: Outcome): Option<Table> {
    match o
    case Exit => None
    case Scanned(r) => Some(r.table)
  }

  // ------------------------------- laws of the scan -------------------------------

  /** A scan moves no boot, incarnation or timestamp, invents no row, and leaves the own row alone. */
  lemma SweepFrame(r: Replica, tick: int, t: Timers, k: Endpoint)
    requires Keyed(r.table) && !HasLeft(r) && k in SweepTable(r.table, r.self, tick, t)
    ensures k in r.table
    ensures var (x, z) := (r.table[k], SweepTable(r.table, r.self, tick, t)[k]);
      z == x.(state := z.state) && (x.id == r.self ==> z == x)
  {
  }

  /** Marks are backed by elapsed time. */
  lemma MarkIsBacked(e: Entry, self: NodeId, tick: int, t: Timers)
    requires Judge(e, self, tick, t).Mark?
    ensures var v := Judge(e, self, tick, t);
      && e.id != self
      && (v.state == Suspect ==> t.suspect != 0 && e.state == Alive && tick >= e.last + t.suspect)
      && (v.state == Failed ==> tick >= e.last + t.suspect + t.fail)
      && (v.state == Suspect || v.state == Failed)
  {
  }

  /** Past all three timeouts, or past the cleanup time of a leave. */
  predicate Expired(e: Entry, tick: int, t: Timers) {
    tick >= e.last + t.suspect + t.fail + t.cleanup || (e.state == Left && tick >= e.last + t.cleanup)
  }

  lemma DiscardIffExpired(e: Entry, self: NodeId, tick: int, t: Timers)
    requires e.id != self
    ensures Judge(e, self, tick, t).Discard? <==> Expired(e, tick, t)
  {
  }

  /** A row survives two scans as it survives the second alone, unless suspicion is off, the node had
      left, and the first scan fell inside the window where a leave is mistaken for a failure
      while the second falls after the leave should have been cleared but before the failure is. */
  predicate LeaveMistaken(e: Entry, self: NodeId, t1: int, t2: int, t: Timers) {
    && t.suspect == 0 && e.state == Left && e.id != self
    && t.fail <= t1 - e.last < t.cleanup <= t2 - e.last < t.fail + t.cleanup
  }

  predicate ValidTimers(t: Timers) {
    t.suspect >= 0 && t.fail > 0 && t.cleanup > 0
  }

  function SweepRowTwice(e: Entry, self: NodeId, t1: int, t2: int, t: Timers): Option<Entry> {
    match SweepRow(e, self, t1, t)
    case None => None
    case Some(x) => SweepRow(x, self, t2, t)
  }

  lemma MissedTickRow(e: Entry, self: NodeId, t1: int, t2: int, t: Timers)
    requires ValidTimers(t) && t1 <= t2
    ensures SweepRowTwice(e, self, t1, t2, t) == SweepRow(e, self, t2, t) <==> !LeaveMistaken(e, self, t1, t2, t)
  {
  }

  /** The row a pass leaves for `k`. */
  function PassRow(r: Replica, now: int, tick: int, t: Timers, k: Endpoint): Option<Entry> {
    match Get(Refresh(r, now).table, k)
    case None => None
    case Some(e) => SweepRow(e, r.self, tick, t)
  }

  lemma PassRows(r: Replica, now: int, tick: int, t: Timers, k: Endpoint)
    requires !HasLeft(r)
    ensures ScanOnce(r, now, tick, t).Scanned?
    ensures var s := ScanOnce(r, now, tick, t).store;
      s.self == r.self && Get(s.table, k) == PassRow(r, now, tick, t, k) && !HasLeft(s)
  {
    var f := Refresh(r, now);
    if r.self.ep in f.table && f.table[r.self.ep].id == r.self {
      assert Judge(f.table[r.self.ep], r.self, tick, t) == Keep;
    }
  }

  /** Missed ticks are harmless: scanning twice leaves what scanning at the later tick alone would,
      exactly when no peer row is a leave caught in the window above. With suspicion on this is always so. */
  lemma MissedTicks(r: Replica, t1: int, t2: int, t: Timers)
    requires Keyed(r.table) && ValidTimers(t) && t1 <= t2
    ensures TableOf(ThenScan(ScanOnce(r, t1, t1, t), t2, t2, t)) == TableOf(ScanOnce(r, t2, t2, t))
      <==> HasLeft(r) || forall k | k in r.table :: !LeaveMistaken(r.table[k], r.self, t1, t2, t)
    ensures t.suspect != 0 ==>
      TableOf(ThenScan(ScanOnce(r, t1, t1, t), t2, t2, t)) == TableOf(ScanOnce(r, t2, t2, t))
  {
    if !HasLeft(r) {
      PassRows(r, t1, t1, t, r.self.ep);
      var first := ScanOnce(r, t1, t1, t).store;
      PassRows(first, t2, t2, t, r.self.ep);
      PassRows(r, t2, t2, t, r.self.ep);
      var (twice, once) := (ScanOnce(first, t2, t2, t).store.table, ScanOnce(r, t2, t2, t).store.table);
      forall k ensures Get(twice, k) == Get(once, k)
          <==> !(k in r.table && LeaveMistaken(r.table[k], r.self, t1, t2, t)) {
        PassRows(r, t1, t1, t, k);
        PassRows(first, t2, t2, t, k);
        PassRows(r, t2, t2, t, k);
        if k in r.table {
          MissedTickRow(r.table[k], r.self, t1, t2, t);
        }
      }
      if forall k | k in r.table :: !LeaveMistaken(r.table[k], r.self, t1, t2, t) {
        SameTable(twice, once);
      }
    }
  }

  /** Scanning again at the same moment changes nothing, the version included. */
  lemma ScanIdempotent(r: Replica, now: int, t: Timers)
    requires Keyed(r.table) && ValidTimers(t)
    ensures ThenScan(ScanOnce(r, now, now, t), now, now, t) == ScanOnce(r, now, now, t)
  {
    MissedTicks(r, now, now, t);
    if !HasLeft(r) {
      PassRows(r, now, now, t, r.self.ep);
      var s := ScanOnce(r, now, now, t).store;
      assert Refresh(s, now).table == s.table;
      assert Touched(s.table, s.self, now, t) == {};
    }
  }

  /** With suspicion off a leave can be rewritten into a failure: the precise rows are the ones old enough. */
  lemma LeaveBecomesFailure(e: Entry, self: NodeId, tick: int, t: Timers)
    requires e.state == Left && e.id != self && ValidTimers(t)
    ensures Judge(e, self, tick, t) == Mark(Failed)
      <==> t.suspect == 0 && t.fail <= tick - e.last < t.cleanup
  {
  }

  // ------------------- the loop behind the scan, row by row -------------------

  /** One row of the snapshot: judged as it was then, acted on as the table is now. */
  function SweepItem(r: Replica, e: Entry, tick: int, t: Timers, now: int): Replica {
    match Judge(e, r.self, tick, t)
    case Keep => r
    case Discard => Remove(r, e.id)
    case Mark(state) => Apply(r, e.id, e.inc, state, now)
  }

  function SweepItems(r: Replica, list: seq<Entry>, tick: int, t: Timers, now: int): Replica
    decreases |list|
  {
    if list == [] then r else SweepItems(SweepItem(r, list[0], tick, t, now), list[1..], tick, t, now)
  }

  function EndpointsOf(list: seq<Entry>): set<Endpoint> {
    set e | e in list :: e.id.ep
  }

  function TouchedIn(list: seq<Entry>, self: NodeId, tick: int, t: Timers): set<Endpoint> {
    set e | e in list && Judge(e, self, tick, t) != Keep :: e.id.ep
  }

  /** One item does to its own row what the scan decides for it, and nothing to any other. */
  lemma ItemRow(r: Replica, e: Entry, tick: int, t: Timers, now: int)
    requires e.id.ep in r.table && r.table[e.id.ep] == e
    ensures var z := SweepItem(r, e, tick, t, now);
      && Get(z.table, e.id.ep) == SweepRow(e, r.self, tick, t)
      && (forall k | k != e.id.ep :: Get(z.table, k) == Get(r.table, k))
      && z.version == r.version + (if Judge(e, r.self, tick, t) == Keep then 0 else 1)
      && z.self == r.self && z.tSuspect == r.tSuspect
  {
  }

  lemma TouchedCons(e: Entry, rest: seq<Entry>, self: NodeId, tick: int, t: Timers)
    requires e.id.ep !in EndpointsOf(rest)
    ensures |TouchedIn([e] + rest, self, tick, t)|
      == |TouchedIn(rest, self, tick, t)| + (if Judge(e, self, tick, t) == Keep then 0 else 1)
  {
    var (whole, tail) := (TouchedIn([e] + rest, self, tick, t), TouchedIn(rest, self, tick, t));
    assert e.id.ep !in tail;
    assert whole == if Judge(e, self, tick, t) == Keep then tail else tail + {e.id.ep};
  }

  /** The loop over any distinct rows, in any order, decides each row on its own. */
  lemma {:induction false} ItemsRows(r: Replica, list: seq<Entry>, tick: int, t: Timers, now: int)
    requires RowsOf(list, r.table)
    ensures var z := SweepItems(r, list, tick, t, now);
      && (forall e | e in list :: Get(z.table, e.id.ep) == SweepRow(e, r.self, tick, t))
      && (forall k | k !in EndpointsOf(list) :: Get(z.table, k) == Get(r.table, k))
      && z.version == r.version + |TouchedIn(list, r.self, tick, t)|
      && z.self == r.self && z.tSuspect == r.tSuspect
    decreases |list|
  {
    if list == [] {
    } else {
      var (e, rest) := (list[0], list[1..]);
      assert list == [e] + rest;
      var u := SweepItem(r, e, tick, t, now);
      ItemRow(r, e, tick, t, now);
      assert e.id.ep !in EndpointsOf(rest);
      RowsRemain(r, e, rest, u);
      TouchedCons(e, rest, r.self, tick, t);
      ItemsRows(u, rest, tick, t, now);
      assert forall c :: c in list <==> c == e || c in rest;
    }
  }

  lemma RowsRemain(r: Replica, e: Entry, rest: seq<Entry>, u: Replica)
    requires RowsOf([e] + rest, r.table)
    requires forall k | k != e.id.ep :: Get(u.table, k) == Get(r.table, k)
    ensures RowsOf(rest, u.table) && e.id.ep !in EndpointsOf(rest)
  {
    var list := [e] + rest;
    forall i | 0 <= i < |rest|
      ensures rest[i].id.ep != e.id.ep && rest[i].id.ep in u.table && u.table[rest[i].id.ep] == rest[i]
    {
      assert list[i + 1] == rest[i] && list[0] == e;
      assert Get(u.table, rest[i].id.ep) == Get(r.table, rest[i].id.ep);
    }
    forall i, j | 0 <= i < j < |rest| ensures rest[i].id.ep != rest[j].id.ep {
      assert list[i + 1] == rest[i] && list[j + 1] == rest[j];
    }
  }

  /** The scan loop refines the pointwise decision: processing a snapshot row by row, in whatever order it
      lists the table, leaves exactly the swept table and version. */
  lemma ScanLoopRefines(r: Replica, list: seq<Entry>, tick: int, t: Timers, now: int)
    requires Keyed(r.table) && Listing(list, r.table)
    ensures SweepItems(r, list, tick, t, now) == Sweep(r, tick, t)
  {
    ItemsRows(r, list, tick, t, now);
    var (z, s) := (SweepItems(r, list, tick, t, now), Sweep(r, tick, t));
    forall k ensures Get(z.table, k) == Get(s.table, k) {
      if k in r.table {
        assert r.table[k] in list;
      } else {
        assert k !in EndpointsOf(list);
      }
    }
    SameTable(z.table, s.table);
    assert TouchedIn(list, r.self, tick, t) == Touched(r.table, r.self, tick, t);
  }
}
