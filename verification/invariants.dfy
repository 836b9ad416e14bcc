/** What holds between decisions: a single thread of control, every wait armed with
    its timer, counters within budget, channels of their reducer's type. */
module Invariants {
  import opened Values
  import opened Flows
  import opened Fold

  // ---- Control: exactly one of five things is open ----

  /** Nothing is open. */
  predicate Free(c: Control) {
    c.tasks == map[] && c.fans == map[] && c.maps == map[] && c.awaits == map[] && c.children == map[]
  }

  predicate TaskOk(f: Flow, k: Key, t: Task, owner: string) {
    && t.owner == owner && t.node == k.node && t.node in f.byId
    && t.index == (if k.Item? then k.index else 0)
    && 1 <= t.attempt <= MaxAttempts(f.byId[t.node])
  }

  predicate ChildOk(f: Flow, k: Key, ch: Child, owner: string) {
    && ch.owner == owner && ch.node == k.node && ch.node in f.byId
    && ch.index == (if k.Item? then k.index else 0)
    && ch.abandon == f.byId[ch.node].abandon
  }

  predicate OnTask(f: Flow, c: Control, node: string) {
    && c.tasks.Keys == {Plain(node)} && TaskOk(f, Plain(node), c.tasks[Plain(node)], "")
    && f.byId[node].typ.TaskNode?
    && c.fans == map[] && c.maps == map[] && c.awaits == map[] && c.children == map[]
  }

  predicate OnChild(f: Flow, c: Control, node: string) {
    && c.children.Keys == {Plain(node)} && ChildOk(f, Plain(node), c.children[Plain(node)], "")
    && f.byId[node].typ.SubflowNode?
    && c.tasks == map[] && c.fans == map[] && c.maps == map[] && c.awaits == map[]
  }

  predicate OnAwait(f: Flow, c: Control, node: string) {
    && c.awaits.Keys == {node} && node in f.byId && f.byId[node].typ.AwaitNode?
    && c.awaits[node].signal == f.byId[node].signal
    && c.tasks == map[] && c.fans == map[] && c.maps == map[] && c.children == map[]
  }

  predicate BranchOpen(c: Control, b: string) { Plain(b) in c.tasks || Plain(b) in c.children }

  /** Fan-out fan is open: its unsettled branches are exactly the open instances, and nothing else is open. */
  ghost predicate FanOpen(f: Flow, c: Control, fan: string) {
    && c.fans.Keys == {fan} && c.maps == map[] && c.awaits == map[]
    && fan in f.byId && f.byId[fan].typ.FanoutNode? && c.fans[fan].join == f.byId[fan].next
    && (forall b :: b in c.fans[fan].branches <==> InFan(f, fan, b))
    && (forall k | k in c.tasks ::
          && k.Plain? && k.node in c.fans[fan].branches && TaskOk(f, k, c.tasks[k], fan)
          && f.byId[k.node].typ.TaskNode?)
    && (forall k | k in c.children ::
          && k.Plain? && k.node in c.fans[fan].branches && ChildOk(f, k, c.children[k], fan)
          && f.byId[k.node].typ.SubflowNode?)
    && (forall b | b in c.fans[fan].branches :: c.fans[fan].branches[b].Pending? <==> BranchOpen(c, b))
  }

  /** Map m is open: its open instances are started items, as many as are not done, and nothing else is open. */
  predicate MapOpen(f: Flow, c: Control, m: string) {
    && c.maps.Keys == {m} && c.fans == map[] && c.awaits == map[]
    && m in f.byId && f.byId[m].typ.MapNode?
    && (forall k | k in c.tasks ::
          && k.Item? && k.node == m && k.index < c.maps[m].next && TaskOk(f, k, c.tasks[k], m)
          && k.index < |c.maps[m].items| && c.tasks[k].item == c.maps[m].items[k.index])
    && (forall k | k in c.children ::
          k.Item? && k.node == m && k.index < c.maps[m].next && ChildOk(f, k, c.children[k], m))
    && (if f.byId[m].flow == "" then c.children == map[] else c.tasks == map[])
    && MapCounted(c, m)
  }

  predicate MapCounted(c: Control, m: string)
    requires m in c.maps
  {
    && |c.maps[m].outputs| == |c.maps[m].items|
    && c.maps[m].done <= c.maps[m].next <= |c.maps[m].items|
    && |c.tasks| + |c.children| == c.maps[m].next - c.maps[m].done
    && c.maps[m].next - c.maps[m].done <= ParallelLimit(c.maps[m].maxParallel)
  }

  /** An open map runs as many items as it may. */
  predicate MapBusy(c: Control, m: string)
    requires m in c.maps
  {
    && c.maps[m].done < c.maps[m].next
    && (c.maps[m].next < |c.maps[m].items| ==>
          c.maps[m].next - c.maps[m].done == ParallelLimit(c.maps[m].maxParallel))
  }

  // ---- Joins ----

  /** How many of the awaited branches ended (or have not yet ended) as st. */
  function Count(waits: seq<string>, branches: map<string, BranchStatus>, st: BranchStatus): (n: nat)
    ensures n <= |waits|
  {
    if |waits| == 0 then 0
    else
      var last := |waits| - 1;
      Count(waits[..last], branches, st) + (if Get(branches, waits[last], Pending) == st then 1 else 0)
  }

  /** The verdict of a join over its awaited branches: None while it is open. */
  function Verdict(p: Policy, waits: seq<string>, branches: map<string, BranchStatus>): Option<bool> {
    var succeeded := Count(waits, branches, Succeeded);
    var pending := Count(waits, branches, Pending);
    var need := Need(p, |waits|);
    if p.JoinMin? && pending > 0 then None
    else if succeeded >= need then Some(true)
    else if succeeded + pending >= need then None
    else Some(false)
  }

  predicate Undecided(f: Flow, c: Control, fan: string)
    requires fan in c.fans
  {
    && fan in f.byId && fan in f.joinOf && f.joinOf[fan] in f.byId
    && Verdict(f.byId[f.joinOf[fan]].policy, WaitFor(f, fan), c.fans[fan].branches).None?
  }

  /** Fan-out fan is open and its join is not decided. */
  ghost predicate OnFan(f: Flow, c: Control, fan: string) { FanOpen(f, c, fan) && Undecided(f, c, fan) }

  /** Map m is open and runs as many items as it may. */
  predicate OnMap(f: Flow, c: Control, m: string) { MapOpen(f, c, m) && MapBusy(c, m) }

  /** Open map m, which was m0, came to rest: nothing of it changed but how many items were started. */
  predicate Rests(f: Flow, c: Control, m: string, m0: MapRun) {
    OnMap(f, c, m) && c.maps[m] == m0.(next := c.maps[m].next) && m0.next <= c.maps[m].next
  }

  ghost predicate Held(f: Flow, c: Control) {
    || (exists node :: OnTask(f, c, node))
    || (exists node :: OnChild(f, c, node))
    || (exists node :: OnAwait(f, c, node))
    || (exists fan :: OnFan(f, c, fan))
    || (exists m :: OnMap(f, c, m))
  }

  // ---- Timers ----

  predicate HasRetry(c: Control, k: Key, generation: nat, attempt: nat) {
    exists i | i in c.timers ::
      c.timers[i].RetryTimer? && c.timers[i].key == k && c.timers[i].generation == generation
      && c.timers[i].attempt == attempt
  }

  predicate HasTimeout(c: Control, k: Key, generation: nat, attempt: nat) {
    exists i | i in c.timers ::
      c.timers[i].TimeoutTimer? && c.timers[i].key == k && c.timers[i].generation == generation
      && c.timers[i].attempt == attempt
  }

  /** A retrying task waits for the timer of its next attempt, a running one of a node with a timeout for that. */
  predicate TaskTimed(f: Flow, c: Control, k: Key)
    requires k in c.tasks
  {
    var t := c.tasks[k];
    && t.node in f.byId
    && (t.status.TaskRetrying? ==>
          t.attempt < MaxAttempts(f.byId[t.node]) && HasRetry(c, k, t.generation, t.attempt + 1))
    && (t.status.TaskScheduled? && f.byId[t.node].timeout > 0 ==> HasTimeout(c, k, t.generation, t.attempt))
  }

  predicate AwaitTimed(c: Control, node: string)
    requires node in c.awaits
  {
    var i := c.awaits[node].timer;
    i in c.timers && c.timers[i].AwaitTimer? && c.timers[i].node == node
  }

  predicate Timed(f: Flow, c: Control) {
    && (forall k | k in c.tasks :: TaskTimed(f, c, k))
    && (forall a | a in c.awaits :: AwaitTimed(c, a))
  }

  /** Every number in use was allocated. */
  predicate Numbered(c: Control) {
    && (forall k | k in c.tasks :: 0 < c.tasks[k].generation <= c.n)
    && (forall i | i in c.timers :: 0 < i <= c.n)
    && (forall k | k in c.children :: 0 < c.children[k].id.n <= c.n)
    && (forall k, l | k in c.children && l in c.children && k != l :: c.children[k].id != c.children[l].id)
  }

  // ---- Data ----

  predicate Typed(f: Flow, channels: map<string, Json>) {
    forall c | c in f.channels :: Fits(f.channels[c].reducer, Get(channels, c, Null))
  }

  predicate InBudget(f: Flow, counters: map<string, real>) {
    forall k | k in f.budget :: Get(counters, k, 0.0) <= f.budget[k]
  }

  predicate Buffers(d: Data, name: string) { exists i :: 0 <= i < |d.buffered| && d.buffered[i].name == name }

  /** No open await coexists with a buffered signal of its name. */
  predicate Quiet(s: State) { forall a | a in s.ctl.awaits :: !Buffers(s.data, s.ctl.awaits[a].signal) }

  /** Node entries never exceed the limit by more than one fan-out and its join. */
  ghost predicate StepsBounded(f: Flow, steps: nat) {
    exists fan :: fan in f.byId && steps <= MaxSteps(f) + |f.byId[fan].branches| + 1
  }

  ghost predicate StepsOk(f: Flow, s: State) {
    && StepsBounded(f, s.data.steps)
    && (forall fan | fan in s.ctl.fans && fan in f.byId :: s.data.steps <= MaxSteps(f) + |f.byId[fan].branches|)
  }

  predicate OwnChildren(s: State) { forall k | k in s.ctl.children :: s.ctl.children[k].id.parent == s.exec }

  /** What holds of the data part even of an execution that has run out of its budget. */
  ghost predicate Shaped(f: Flow, d: Data) { Typed(f, d.channels) && StepsBounded(f, d.steps) }

  /** What holds of the data part whatever is in flight. */
  ghost predicate DataOk(f: Flow, d: Data) { Shaped(f, d) && InBudget(f, d.counters) }

  lemma OkShaped(f: Flow, d: Data)
    requires DataOk(f, d)
    ensures Shaped(f, d)
  {
  }

  /** A live execution between two decisions. */
  ghost predicate Resting(f: Flow, s: State) {
    && s.phase.Live? && Exists(s)
    && Held(f, s.ctl) && Timed(f, s.ctl) && Numbered(s.ctl)
    && OwnChildren(s) && Quiet(s) && DataOk(f, s.data) && StepsOk(f, s)
  }

  /** A finished execution: nothing is in flight, and it ended within the bound on node entries. */
  ghost predicate Finished(f: Flow, s: State) {
    Terminal(s.phase) && Exists(s) && s.ctl == ClosedControl(s.ctl) && Shaped(f, s.data)
  }

  /** Every existing execution, between two decisions. */
  ghost predicate Boundary(f: Flow, s: State) { Resting(f, s) || Finished(f, s) }

  /** A live execution that just left a node and has not entered the next. */
  ghost predicate Ready(f: Flow, s: State) {
    s.phase.Live? && Exists(s) && Free(s.ctl) && Numbered(s.ctl) && DataOk(f, s.data)
  }

  // ---- Coming to rest ----

  /** What rests on any of the five. */
  ghost predicate Settling(f: Flow, s: State) {
    s.phase.Live? && Exists(s) && Timed(f, s.ctl) && Numbered(s.ctl) && OwnChildren(s) && DataOk(f, s.data)
  }

  lemma RestOnTask(f: Flow, s: State, node: string)
    requires Settling(f, s) && OnTask(f, s.ctl, node)
    ensures Boundary(f, s)
  {
    hide Timed, Numbered, Typed, InBudget, TaskOk;
  }

  lemma RestOnChild(f: Flow, s: State, node: string)
    requires Settling(f, s) && OnChild(f, s.ctl, node)
    ensures Boundary(f, s)
  {
    hide Timed, Numbered, Typed, InBudget, ChildOk;
  }

  lemma RestOnAwait(f: Flow, s: State, node: string)
    requires Settling(f, s) && OnAwait(f, s.ctl, node) && !Buffers(s.data, f.byId[node].signal)
    ensures Boundary(f, s)
  {
    hide Timed, Numbered, Typed, InBudget, Buffers;
  }

  lemma RestOnFan(f: Flow, s: State, fan: string)
    requires Settling(f, s) && FanOpen(f, s.ctl, fan) && Undecided(f, s.ctl, fan)
    requires s.data.steps <= MaxSteps(f) + |f.byId[fan].branches|
    ensures Boundary(f, s)
  {
    assert OnFan(f, s.ctl, fan);
    hide Timed, Numbered, Typed, InBudget, Undecided, TaskOk, ChildOk, BranchOpen, MaxSteps;
  }

  lemma RestOnMap(f: Flow, s: State, m: string)
    requires Settling(f, s) && MapOpen(f, s.ctl, m) && MapBusy(s.ctl, m)
    ensures Boundary(f, s)
  {
    assert OnMap(f, s.ctl, m);
    hide Timed, Numbered, Typed, InBudget, TaskOk, ChildOk, MapCounted, MapBusy;
  }

  lemma FinishedIsBoundary(f: Flow, s: State)
    requires Finished(f, s)
    ensures Boundary(f, s)
  {
  }

  /** Entering a node within the limit keeps the data part in order. */
  lemma DataOkEntered(f: Flow, d: Data, node: string)
    requires DataOk(f, d) && d.steps + 1 <= MaxSteps(f) && node in f.byId
    ensures DataOk(f, LifeData(d, Entered(node)))
  {
    assert d.steps + 1 <= MaxSteps(f) + |f.byId[node].branches| + 1;
  }

  /** No execution is ever stuck: what is live has an open task, await or child. */
  lemma NeverStuck(f: Flow, s: State)
    requires Sound(f) && Resting(f, s)
    ensures s.ctl.tasks != map[] || s.ctl.awaits != map[] || s.ctl.children != map[]
  {
    hide Timed, Numbered, DataOk, Quiet, StepsOk, OwnChildren, TaskOk, ChildOk, Undecided, FanoutOk;
    var c := s.ctl;
    if fan :| OnFan(f, c, fan) {
      assert Known(f, fan);
      FanHasInstance(f, c, fan);
    } else if m :| OnMap(f, c, m) {
      assert |c.tasks| + |c.children| > 0;
    } else if node :| OnTask(f, c, node) {
      assert Plain(node) in c.tasks;
    } else if node :| OnChild(f, c, node) {
      assert Plain(node) in c.children;
    } else {
      var node :| OnAwait(f, c, node);
      assert node in c.awaits;
    }
  }

  lemma FanHasInstance(f: Flow, c: Control, fan: string)
    requires FanOpen(f, c, fan) && Undecided(f, c, fan)
    requires f.byId[fan].id == fan && FanoutOk(f, f.byId[fan])
    ensures c.tasks != map[] || c.children != map[]
  {
    var waits := WaitFor(f, fan);
    PendingExists(f.byId[f.joinOf[fan]].policy, waits, c.fans[fan].branches);
    var i :| 0 <= i < |waits| && Get(c.fans[fan].branches, waits[i], Pending).Pending?;
    assert InFan(f, fan, waits[i]);
    assert BranchOpen(c, waits[i]);
  }

  /** An open join has an awaited branch that is still pending. */
  lemma PendingExists(p: Policy, waits: seq<string>, branches: map<string, BranchStatus>)
    requires Verdict(p, waits, branches).None?
    ensures exists i :: 0 <= i < |waits| && Get(branches, waits[i], Pending).Pending?
  {
    if Count(waits, branches, Pending) > 0 {
      CountWitness(waits, branches, Pending);
    }
  }

  lemma {:induction false} CountWitness(waits: seq<string>, branches: map<string, BranchStatus>, st: BranchStatus)
    requires Count(waits, branches, st) > 0
    ensures exists i :: 0 <= i < |waits| && Get(branches, waits[i], Pending) == st
  {
    var last := |waits| - 1;
    if Get(branches, waits[last], Pending) != st {
      CountWitness(waits[..last], branches, st);
      var i :| 0 <= i < last && Get(branches, waits[..last][i], Pending) == st;
      assert waits[i] == waits[..last][i];
    }
  }
}
