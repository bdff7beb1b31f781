/** The detector object: it scans a store and writes its verdicts back, row by row. */
module SuspicionManager {
  import opened Identity
  import opened Membership
  import opened Scanner
  import opened Settings
  import opened MembershipStore

  class Manager {
    const st: Store
    var tSuspect: int
    var tFail: int
    var tCleanup: int

    ghost function Timing(): Timers
      reads this
    {
      Timers(tSuspect, tFail, tCleanup)
    }

    constructor (st: Store, cfg: Config)
      ensures this.st == st
      ensures Timing() == Timers(cfg.knobs.tSuspect, cfg.knobs.tFail, cfg.knobs.tCleanup)
    {
      this.st := st;
      tSuspect, tFail, tCleanup := cfg.knobs.tSuspect, cfg.knobs.tFail, cfg.knobs.tCleanup;
    }

    method Reconfigure(suspect: int, fail: int, cleanup: int)
      modifies this`tSuspect, this`tFail, this`tCleanup
      ensures Timing() == Timers(suspect, fail, cleanup)
    {
      tSuspect, tFail, tCleanup := suspect, fail, cleanup;
    }

    /** Judges one row of a snapshot and writes the verdict to the store. */
    method ScanRow(e: Entry, tick: int, now: int, suspect: int, fail: int, cleanup: int)
      requires st.Valid()
      modifies st`entries, st`version
      ensures st.Valid() && st.Value() == SweepItem(old(st.Value()), e, tick, Timers(suspect, fail, cleanup), now)
    {
      var age := tick - e.last;
      if e.state == Left && age >= cleanup {
        st.RemoveEntry(e.id);
        return;
      }
      if e.id == st.self {
        return;
      }
      if suspect != 0 {
        if age >= suspect + fail + cleanup {
          st.RemoveEntry(e.id);
        } else if age >= suspect + fail && (e.state == Alive || e.state == Suspect) {
          st.ApplyLocked(e.id, e.inc, Failed, now);
        } else if age >= suspect && e.state == Alive {
          st.ApplyLocked(e.id, e.inc, Suspect, now);
        }
      } else {
        if age >= fail + cleanup {
          st.RemoveEntry(e.id);
        } else if age >= fail && e.state != Failed {
          st.ApplyLocked(e.id, e.inc, Failed, now);
        }
      }
    }

    /** Judges the rows of a snapshot one after the other. */
    method ScanRows(entries: seq<Entry>, tick: int, now: int, suspect: int, fail: int, cleanup: int)
      requires st.Valid()
      modifies st`entries, st`version
      ensures st.Valid()
      ensures st.Value() == SweepItems(old(st.Value()), entries, tick, Timers(suspect, fail, cleanup), now)
    {
      hide SweepItem, ByEndpoint, EndpointToString;
      ghost var t := Timers(suspect, fail, cleanup);
      for i := 0 to |entries|
        invariant st.Valid()
        invariant SweepItems(st.Value(), entries[i..], tick, t, now) == SweepItems(old(st.Value()), entries, tick, t, now)
      {
        assert entries[i..][0] == entries[i] && entries[i..][1..] == entries[i + 1..];
        ScanRow(entries[i], tick, now, suspect, fail, cleanup);
      }
    }

    /** One pass as of `tick`, the clock reading `now` while it runs: snapshot, stop if the node has left,
        and otherwise judge every row of the snapshot. */
    method ScanPass(tick: int, now: int, suspect: int, fail: int, cleanup: int) returns (exit: bool)
      requires st.Valid()
      modifies st`entries, st`version
      ensures st.Valid()
      ensures match ScanOnce(old(st.Value()), now, tick, Timers(suspect, fail, cleanup))
        case Exit => exit
        case Scanned(r) => !exit && st.Value() == r
    {
      hide SweepItem, Sweep, Refresh, ByEndpoint, EndpointToString, SweepItems;
      exit := false;
      var entries, selfID := st.Snapshot(now);
      for i := 0 to |entries|
        invariant forall j | 0 <= j < i :: !(entries[j].id == selfID && entries[j].state == Left)
      {
        var e := entries[i];
        if e.id == selfID && e.state == Left {
          OwnListed(entries, st.Value(), i);
          exit := tick - e.last >= cleanup;
          return;
        }
      }
      NotLeft(entries, st.Value());
      TextLookup(st.entries, st.self.ep);
      ScanLoopRefines(st.Value(), entries, tick, Timers(suspect, fail, cleanup), now);
      ScanRows(entries, tick, now, suspect, fail, cleanup);
    }
  }

  lemma OwnListed(list: seq<Entry>, r: Replica, i: nat)
    requires Listing(list, r.table) && i < |list| && list[i].id == r.self && list[i].state == Left
    ensures HasLeft(r) && r.table[r.self.ep] == list[i]
  {
  }

  lemma NotLeft(list: seq<Entry>, r: Replica)
    requires Listing(list, r.table)
    requires forall j | 0 <= j < |list| :: !(list[j].id == r.self && list[j].state == Left)
    ensures !HasLeft(r)
  {
    assert r.self.ep in r.table ==> r.table[r.self.ep] in list;
  }
}
