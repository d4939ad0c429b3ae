/** No state is a dead end: from every reachable state of the job, whatever was lost, duplicated or has failed, there is a way on
    to any number of further steps. */
module ClusterRecovery {
  import opened Prelude
  import opened AllReduce
  import opened Cluster
  import opened ClusterRuns
  import ClusterInvariant
  import ClusterTheorems

  // ---------------------------------------------------------------------------------------------
  // All processes restart
  // ---------------------------------------------------------------------------------------------

  /** The checkpoints on disk. */
  ghost function Disks(nodes: map<int, Node>): map<int, int> {
    map r | r in nodes :: nodes[r].disk
  }

  /** A rank calls after a restart that left its disk as it was. */
  ghost predicate CallsFromDisk(s: System, t: System, rank: int, call: JoinMessage) {
    rank in s.nodes && CallsNow(t, rank, call) && call.step == s.nodes[rank].disk
  }

  /** Since `s` the first `k` ranks restarted, rank 0 and the coordinator among them. */
  ghost predicate RestartedUpTo(s: System, t: System, calls: Calls, k: nat) {
    && t.world == s.world && t.nodes.Keys == s.nodes.Keys && t.ids == s.ids && t.started == s.started
    && (k > 0 ==> t.coordinator == Fresh(s.world))
    && calls.Keys == Below(k) && (forall r | r in calls :: CallsFromDisk(s, t, r, calls[r]))
    && forall r | r in s.nodes && r >= k :: t.nodes[r] == s.nodes[r]
  }

  lemma OneRestarts(states: States, s: System, rank: int) returns (t: System, call: JoinMessage)
    requires Kept(states) && states(s) && rank in s.nodes && s.nodes[rank].disk >= 0
    ensures states(t) && CallsFromDisk(s, t, rank, call) && t.nodes == s.nodes[rank := t.nodes[rank]]
    ensures t.world == s.world && t.ids == s.ids && t.started == s.started && s.joins <= t.joins
    ensures t.coordinator == if rank == 0 then Fresh(s.world) else s.coordinator
  {
    var name := FreshName(s.incarnations);
    Reaches(states, s, Crash(rank, name, 0, true));
    t := Apply(s, Crash(rank, name, 0, true));
    call := t.nodes[rank].mode.call;
  }

  lemma OneMoreRestarts(s: System, u: System, t: System, calls: Calls, k: nat, call: JoinMessage)
    requires s.nodes.Keys == Below(s.world) && k < s.world && RestartedUpTo(s, u, calls, k)
    requires CallsFromDisk(u, t, k, call) && t.nodes == u.nodes[k := t.nodes[k]]
    requires t.world == u.world && t.ids == u.ids && t.started == u.started && u.joins <= t.joins
    requires t.coordinator == if k == 0 then Fresh(u.world) else u.coordinator
    ensures RestartedUpTo(s, t, calls[k := call], k + 1)
  {
    var more := calls[k := call];
    forall r | r in more
      ensures CallsFromDisk(s, t, r, more[r])
    {
      if r in calls && r != k {
        assert CallsFromDisk(s, u, r, calls[r]);
      }
    }
    assert more.Keys == Below(k + 1);
  }

  lemma NotYetRestarted(s: System, u: System, calls: Calls, k: nat)
    requires s.nodes.Keys == Below(s.world) && k < s.world && RestartedUpTo(s, u, calls, k)
    ensures k in s.nodes && k in u.nodes && u.nodes[k] == s.nodes[k]
  {
  }

  lemma NextRestarts(states: States, s: System, u: System, calls: Calls, k: nat) returns (t: System, more: Calls)
    requires Kept(states) && states(u) && s.nodes.Keys == Below(s.world) && k < s.world && RestartedUpTo(s, u, calls, k)
    requires k in s.nodes && s.nodes[k].disk >= 0
    ensures states(t) && RestartedUpTo(s, t, more, k + 1)
  {
    NotYetRestarted(s, u, calls, k);
    var call;
    t, call := OneRestarts(states, u, k);
    OneMoreRestarts(s, u, t, calls, k, call);
    more := calls[k := call];
  }

  lemma {:induction false} SomeRestart(states: States, s: System, k: nat) returns (t: System, calls: Calls)
    requires Kept(states) && states(s) && s.nodes.Keys == Below(s.world) && k <= s.world
    requires forall r | r in s.nodes :: s.nodes[r].disk >= 0
    ensures states(t) && RestartedUpTo(s, t, calls, k)
  {
    if k == 0 {
      t, calls := s, map[];
    } else {
      var u, before := SomeRestart(states, s, k - 1);
      assert k - 1 in s.nodes;
      t, calls := NextRestarts(states, s, u, before, k - 1);
    }
  }

  lemma AllCallAfter(s: System, t: System, calls: Calls)
    requires s.world >= 1 && s.nodes.Keys == Below(s.world) && s.started.Keys <= s.ids
    requires RestartedUpTo(s, t, calls, s.world)
    ensures AllCall(t, calls) && StepsOf(calls) == Disks(s.nodes)
  {
    forall r | r in calls
      ensures CallsNow(t, r, calls[r]) && calls[r].step == s.nodes[r].disk
    {
      assert CallsFromDisk(s, t, r, calls[r]);
    }
  }

  // ---------------------------------------------------------------------------------------------
  // And go on
  // ---------------------------------------------------------------------------------------------

  /** All ranks are in one session, `more` steps after the lowest checkpoint they had on disk, and have saved them. */
  ghost predicate GoneOn(before: System, after: System, least: int, more: nat) {
    && after.world == before.world && after.nodes.Keys == before.nodes.Keys && IsLowest(Disks(before.nodes), least)
    && (exists id :: forall r | r in after.nodes :: after.nodes[r].mode == Training(id))
    && forall r | r in after.nodes :: after.nodes[r].step == after.nodes[r].disk == least + more
  }

  lemma GoOn(states: States, s: System, more: nat) returns (t: System, least: int)
    requires Kept(states) && states(s) && s.world >= 1 && s.nodes.Keys == Below(s.world) && s.started.Keys <= s.ids
    requires forall r | r in s.nodes :: s.nodes[r].disk >= 0
    ensures states(t) && GoneOn(s, t, least, more)
  {
    var u, calls := SomeRestart(states, s, s.world);
    AllCallAfter(s, u, calls);
    var id := FreshName(u.ids);
    u, least := AllJoin(states, u, calls, id);
    ResumedTogether(u, id, least);
    t := MoreSteps(states, u, id, least, least, more);
  }

  lemma Sound(run: seq<System>, actions: seq<Action>) returns (s: System)
    requires IsRun(run, actions)
    ensures s == run[|actions|] && s.world >= 1 && s.nodes.Keys == Below(s.world) && s.started.Keys <= s.ids
    ensures forall r | r in s.nodes :: s.nodes[r].disk >= 0
  {
    s := run[|actions|];
    ClusterInvariant.RunKeepsInv(run, actions, |actions|);
  }

  /** The averages of all ranks have been accepted for every step up to `k`. */
  ghost predicate RightUpTo(s: System, k: int) {
    && s.world >= 1
    && forall r, j | r in s.nodes && 1 <= j <= k ::
         j in s.nodes[r].accepted && s.nodes[r].accepted[j] == TrueAverage(Gradient, j, s.world)
  }

  lemma AllRight(run: seq<System>, actions: seq<Action>, s: System, k: int)
    requires IsRun(run, actions) && s == run[|actions|]
    requires forall r | r in s.nodes :: s.nodes[r].step >= k
    ensures RightUpTo(s, k)
  {
    ClusterInvariant.RunKeepsInv(run, actions, |actions|);
    forall r, j | r in s.nodes && 1 <= j <= k
      ensures j in s.nodes[r].accepted && s.nodes[r].accepted[j] == TrueAverage(Gradient, j, s.world)
    {
      ClusterTheorems.NoGaps(run, actions, |actions|, r);
    }
  }

  lemma RightAfter(run: seq<System>, actions: seq<Action>, before: System, after: System, least: int, more: nat)
    requires Follows(run, actions, after) && GoneOn(before, after, least, more)
    ensures RightUpTo(after, least + more)
  {
    var longer, further := RunTo(run, actions, after);
    AllRight(longer, further, after, least + more);
  }

  lemma GoOnFrom(run: seq<System>, actions: seq<Action>, more: nat) returns (s: System, t: System, least: int)
    requires IsRun(run, actions)
    ensures s == run[|actions|] && Follows(run, actions, t) && GoneOn(s, t, least, more)
  {
    s := Sound(run, actions);
    FollowsItself(run, actions);
    FollowsIsKept(run, actions);
    t, least := GoOn(state => Follows(run, actions, state), s, more);
  }

  /** From every state the job can get into, however many messages were lost or duplicated and are still under way, whatever
      processes failed, and however full the pending table is, restarting the processes leads on: the ranks resume at
      the lowest checkpoint on disk and can go on for any number of steps, all with the true averages. */
  lemma AlwaysAWayOn(run: seq<System>, actions: seq<Action>, more: nat)
    returns (longer: seq<System>, further: seq<Action>, before: System, after: System, least: int)
    requires IsRun(run, actions)
    ensures IsRun(longer, further) && run <= longer && actions <= further
    ensures before == run[|actions|] && after == longer[|further|]
    ensures GoneOn(before, after, least, more) && RightUpTo(after, least + more)
  {
    before, after, least := GoOnFrom(run, actions, more);
    RightAfter(run, actions, before, after, least, more);
    longer, further := RunTo(run, actions, after);
  }
}
