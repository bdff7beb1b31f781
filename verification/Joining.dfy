/** What a join achieves. */
module Joining {
  import opened Identity
  import opened Membership
  import opened Settings
  import opened Cluster
  import opened Claims
  import opened Rooting

  /** The table of the node at `at` has a row for the very boot `id`. */
  ghost predicate Knows(s: Cluster, at: Endpoint, id: NodeId) {
    at in s.nodes && id.ep in s.nodes[at].store.table && s.nodes[at].store.table[id.ep].id == id
  }

  /** The table has a row for the boot `id` or a newer one of its endpoint. */
  ghost predicate KnowsOf(t: Table, id: NodeId) {
    id.ep in t && t[id.ep].id.ts >= id.ts
  }

  /** Merging loses no boot that was known, and learns every boot the list mentions. */
  lemma {:induction false} MergeLearns(r: Replica, list: seq<Entry>, now: int, id: NodeId)
    requires KnowsOf(r.table, id) || exists c :: c in list && c.id == id
    ensures KnowsOf(Merge(r, list, now).table, id)
    decreases |list|
  {
    if list == [] {
    } else {
      var u := Update(r, list[0], now);
      assert KnowsOf(u.table, id) || exists c :: c in list[1..] && c.id == id;
      MergeLearns(u, list[1..], now, id);
    }
  }

  /** Nobody can know a newer boot of an endpoint than the one that runs there. */
  lemma LearnedBoot(s: Cluster, at: Endpoint, id: NodeId)
    requires Base(s) && at in s.nodes && Runs(s, id) && KnowsOf(s.nodes[at].store.table, id)
    ensures Knows(s, at, id)
  {
    hide EveryClaim;
    var c := s.nodes[at].store.table[id.ep];
    BaseNode(s, at);
    BaseNode(s, id.ep);
    NodeClaims(s, at, Dated(s));
    assert Dated(s)(c);
  }

  /** A node that has not joined asks with its own row and nothing else. */
  lemma AsksWithOwnRow(n: Node, ask: seq<Entry>, now: int)
    requires Rooted(n) && !n.started && Listing(ask, Snapped(n, now).store.table)
    ensures Shown(n, now) in ask && forall c | c in ask :: c == Shown(n, now)
  {
    var t := Snapped(n, now).store.table;
    assert t.Keys == {n.store.self.ep} && t[n.store.self.ep] == Shown(n, now);
  }

  lemma IntroducerLearns(s: Cluster, step: Step, s': Cluster)
    requires Base(s) && step.Join? && Next(s, step, s')
    ensures step.at in s.nodes && step.via in s'.nodes
    ensures KnowsOf(s'.nodes[step.via].store.table, s.nodes[step.at].store.self)
  {
    hide Next, EveryClaim, Listing;
    JoinSites(s, step, s');
    var (at, via, ask) := (step.at, step.via, step.ask);
    BaseNode(s, at);
    AsksWithOwnRow(s.nodes[at], ask, s.clock);
    assert Shown(s.nodes[at], s.clock).id == s.nodes[at].store.self;
    MergeLearns(s.nodes[via].store, ask, s.clock, s.nodes[at].store.self);
  }

  lemma JoinerLearns(s: Cluster, step: Step, s': Cluster)
    requires Base(s) && step.Join? && step.answered && Next(s, step, s')
    ensures step.via in s.nodes && step.at in s'.nodes
    ensures KnowsOf(s'.nodes[step.at].store.table, s.nodes[step.via].store.self)
  {
    hide Next, EveryClaim;
    JoinSites(s, step, s');
    JoinRooted(s, step, s');
    var (at, via, ask, reply) := (step.at, step.via, step.ask, step.reply);
    BaseNode(s, via);
    var i := Greeted(s.nodes[via], ask, s.clock);
    assert i.store.table[via] in reply && i.store.table[via].id == s.nodes[via].store.self;
    var c := Configured(Snapped(s.nodes[at], s.clock), ToDto(i.cfg));
    MergeLearns(c.store, reply, s.clock, s.nodes[via].store.self);
  }

  /** An answered join introduces the joiner and the introducer to each other, whatever earlier boots of
      either the other had heard of. */
  lemma JoinIntroduces(run: Run, i: nat)
    requires ValidRun(run) && i < |run.steps| && run.steps[i].Join? && run.steps[i].answered
    requires run.steps[i].at in run.states[i].nodes && run.steps[i].via in run.states[i].nodes
    ensures var (step, s, s') := (run.steps[i], run.states[i], run.states[i + 1]);
      Knows(s', step.via, s.nodes[step.at].store.self) && Knows(s', step.at, s.nodes[step.via].store.self)
  {
    hide Next, Base, AnchoredAt;
    var (s, step, s') := (run.states[i], run.steps[i], run.states[i + 1]);
    assert Next(s, step, s');
    RunBase(run, i);
    RunBase(run, i + 1);
    IntroducerLearns(s, step, s');
    JoinerLearns(s, step, s');
    JoinedRun(s, step, s');
    LearnedBoot(s', step.via, s.nodes[step.at].store.self);
    LearnedBoot(s', step.at, s.nodes[step.via].store.self);
  }

  lemma JoinedRun(s: Cluster, step: Step, s': Cluster)
    requires Base(s) && step.Join? && Next(s, step, s')
    ensures step.at in s.nodes && step.via in s.nodes && step.at in s'.nodes && step.via in s'.nodes
    ensures Runs(s', s.nodes[step.at].store.self) && Runs(s', s.nodes[step.via].store.self)
  {
    hide Next, EveryClaim;
    JoinRooted(s, step, s');
    BaseNode(s, step.at);
    BaseNode(s, step.via);
  }
}
