/** The control part after the steps of a decision, and what those steps keep. */
module ControlSteps {
  import opened Values
  import opened Flows
  import opened Fold
  import opened Invariants
  import opened Guards
  import opened Joins

  function NextBook(b: Book): Book { b.(events := b.events + 1) }

  function TimerSetControl(c: Control, timer: Timer): Control {
    c.(timers := c.timers[c.n + 1 := timer], n := c.n + 1)
  }

  function Generation(c: Control, gen: nat): nat { if gen == 0 then c.n + 1 else gen }

  function Attempt(n: Node, key: Key, owner: string, index: nat, item: Json, resume: Option<Json>, by_: string,
                   generation: nat, attempt: nat): (e: NodeEvent)
    ensures e.Scheduled?
  {
    Scheduled(key, n.id, index, generation, attempt, owner, item, resume, by_)
  }

  function ScheduleControl(c: Control, n: Node, e: NodeEvent, now: int): Control
    requires e.Scheduled?
  {
    var c' := NodeControl(c, e);
    if n.timeout > 0 then TimerSetControl(c', TimeoutTimer(now + n.timeout, e.key, e.generation, e.attempt)) else c'
  }

  /** Every timer of c is still pending in c'. */
  predicate TimersKept(c: Control, c': Control) {
    forall i | i in c.timers :: i in c'.timers && c'.timers[i] == c.timers[i]
  }

  lemma StillTimed(f: Flow, c: Control, c': Control, k: Key)
    requires k in c.tasks && k in c'.tasks && c'.tasks[k] == c.tasks[k] && TimersKept(c, c') && TaskTimed(f, c, k)
    ensures TaskTimed(f, c', k)
  {
    var t := c.tasks[k];
    if t.status.TaskRetrying? {
      var i :| i in c.timers && c.timers[i].RetryTimer? && c.timers[i].key == k
               && c.timers[i].generation == t.generation && c.timers[i].attempt == t.attempt + 1;
      assert c'.timers[i] == c.timers[i];
    } else if t.status.TaskScheduled? && f.byId[t.node].timeout > 0 {
      var i :| i in c.timers && c.timers[i].TimeoutTimer? && c.timers[i].key == k
               && c.timers[i].generation == t.generation && c.timers[i].attempt == t.attempt;
      assert c'.timers[i] == c.timers[i];
    }
  }

  /** All that scheduling an attempt changes. */
  lemma ScheduleShape(f: Flow, c: Control, n: Node, e: NodeEvent, now: int)
    requires e.Scheduled? && ScheduleGuard(f, c, e) && Numbered(c)
    ensures var c' := ScheduleControl(c, n, e, now);
            && Numbered(c') && TimersKept(c, c') && c'.n >= c.n
            && c'.fans == c.fans && c'.awaits == c.awaits && c'.children == c.children
            && c'.maps == ItemStarted(c, e.owner, e.node, e.index)
            && (forall i | i in c'.timers :: i in c.timers || i > c.n)
            && e.key in c'.tasks && c'.tasks == c.tasks[e.key := c'.tasks[e.key]] && StartedAs(e, c'.tasks[e.key])
            && (n.timeout > 0 ==> HasTimeout(c', e.key, e.generation, e.attempt))
  {
    var c' := ScheduleControl(c, n, e, now);
    if n.timeout > 0 {
      assert c'.timers[c'.n] == TimeoutTimer(now + n.timeout, e.key, e.generation, e.attempt);
    }
  }

  /** A scheduled attempt is armed with its timeout; what was armed stays so. */
  lemma ScheduleKeeps(f: Flow, c: Control, n: Node, e: NodeEvent, now: int)
    requires e.Scheduled? && ScheduleGuard(f, c, e) && n == f.byId[e.node] && Numbered(c)
    requires forall k | k in c.tasks && k != e.key :: TaskTimed(f, c, k)
    requires forall a | a in c.awaits :: AwaitTimed(c, a)
    ensures Timed(f, ScheduleControl(c, n, e, now))
  {
    ScheduleShape(f, c, n, e, now);
    hide ScheduleControl, ScheduleGuard, Numbered;
    var c' := ScheduleControl(c, n, e, now);
    forall k | k in c'.tasks ensures TaskTimed(f, c', k) {
      if k != e.key {
        hide TaskTimed;
        StillTimed(f, c, c', k);
      }
    }
  }

  /** Task t runs the attempt that e schedules. */
  predicate StartedAs(e: NodeEvent, t: Task)
    requires e.Scheduled?
  {
    && t.node == e.node && t.owner == e.owner && t.index == e.index && t.item == e.item
    && t.generation == e.generation && t.attempt == e.attempt && t.status.TaskScheduled?
    && t.resume == e.resume && t.resumedBy == e.resumedBy
  }

  lemma EnterTask(f: Flow, c: Control, n: Node, e: NodeEvent, now: int)
    requires Free(c) && Numbered(c)
    requires n.id in f.byId && n == f.byId[n.id] && n.typ.TaskNode?
    requires e == Attempt(n, Plain(n.id), "", 0, Null, None, "", c.n + 1, 1)
    ensures ScheduleGuard(f, c, e)
    ensures var c' := ScheduleControl(c, n, e, now);
            OnTask(f, c', n.id) && Numbered(c') && Timed(f, c')
  {
    ScheduleKeeps(f, c, n, e, now);
    ScheduleShape(f, c, n, e, now);
    var c' := ScheduleControl(c, n, e, now);
    assert c'.tasks.Keys == {Plain(n.id)};
    assert c'.maps == map[];
  }

  // ---- Children ----

  function ChildOf(s: State, n: Node, owner: string, index: nat): Child {
    Child(ChildId(s.exec, s.ctl.n + 1), n.abandon, n.id, owner, index)
  }

  function ChildControl(c: Control, key: Key, child: Child): Control { WaitControl(c, ChildStarted(key, child, Null)) }

  /** All that starting a child changes. */
  lemma ChildShape(s: State, key: Key, child: Child)
    requires ChildGuard(s, key, child) && Numbered(s.ctl)
    ensures var c' := ChildControl(s.ctl, key, child);
            && Numbered(c') && TimersKept(s.ctl, c') && c'.timers == s.ctl.timers && c'.n == s.ctl.n + 1
            && c'.fans == s.ctl.fans && c'.awaits == s.ctl.awaits && c'.tasks == s.ctl.tasks
            && c'.maps == ItemStarted(s.ctl, child.owner, child.node, child.index)
            && c'.children == s.ctl.children[key := child]
  {
  }

  lemma EnterChild(f: Flow, s: State, n: Node)
    requires Free(s.ctl) && Numbered(s.ctl)
    requires n.id in f.byId && n == f.byId[n.id] && n.typ.SubflowNode?
    ensures ChildGuard(s, Plain(n.id), ChildOf(s, n, "", 0))
    ensures var c' := ChildControl(s.ctl, Plain(n.id), ChildOf(s, n, "", 0));
            OnChild(f, c', n.id) && Numbered(c') && Timed(f, c')
  {
    ChildShape(s, Plain(n.id), ChildOf(s, n, "", 0));
    var c' := ChildControl(s.ctl, Plain(n.id), ChildOf(s, n, "", 0));
    assert c'.children.Keys == {Plain(n.id)};
  }

  // ---- Awaits ----

  /** Nothing is open but, in a fork, the await itself. */
  predicate AwaitReady(c: Control, node: string) {
    c.tasks == map[] && c.fans == map[] && c.maps == map[] && c.children == map[] && c.awaits.Keys <= {node}
  }

  function AwaitControl(c: Control, n: Node, now: int): Control {
    TimerSetControl(c.(awaits := c.awaits[n.id := Await(n.signal, c.n + 1)]), AwaitTimer(now + n.timeout, n.id))
  }

  lemma EnterAwait(f: Flow, c: Control, n: Node, now: int)
    requires AwaitReady(c, n.id) && Numbered(c)
    requires n.id in f.byId && n == f.byId[n.id] && n.typ.AwaitNode?
    ensures c.awaits == map[] || n.id in c.awaits
    ensures var c' := AwaitControl(c, n, now);
            OnAwait(f, c', n.id) && Numbered(c') && Timed(f, c')
  {
    var c' := AwaitControl(c, n, now);
    assert c'.awaits.Keys == {n.id};
    if n.id !in c.awaits { assert c.awaits.Keys == {}; }
  }

  lemma AwaitLeft(f: Flow, c: Control, node: string)
    requires OnAwait(f, c, node) && Numbered(c)
    ensures Free(AwaitClosed(c, node)) && Numbered(AwaitClosed(c, node))
  {
    var c' := AwaitClosed(c, node);
    assert c'.awaits.Keys == {};
  }

  // ---- Fan-outs ----

  /** The first i branches of fan-out n have started. */
  ghost predicate FanPartial(f: Flow, c: Control, n: Node, i: nat)
    requires i <= |n.branches|
  {
    && c.fans.Keys == {n.id} && c.maps == map[] && c.awaits == map[]
    && c.fans[n.id].join == n.next
    && (forall b :: b in c.fans[n.id].branches <==> InFan(f, n.id, b))
    && (forall b | b in c.fans[n.id].branches :: c.fans[n.id].branches[b].Pending?)
    && (forall k | k in c.tasks ::
          k.Plain? && k.node in n.branches[..i] && TaskOk(f, k, c.tasks[k], n.id) && f.byId[k.node].typ.TaskNode?)
    && (forall k | k in c.children ::
          k.Plain? && k.node in n.branches[..i] && ChildOk(f, k, c.children[k], n.id) && f.byId[k.node].typ.SubflowNode?)
    && (forall j :: 0 <= j < i ==> BranchOpen(c, n.branches[j]))
  }

  lemma FanStarted(f: Flow, c: Control, n: Node)
    requires Free(c) && FanoutOk(f, n)
    ensures FanPartial(f, GraphControl(c, FanoutStarted(n.id, n.next, n.branches)), n, 0)
  {
    var c' := GraphControl(c, FanoutStarted(n.id, n.next, n.branches));
    forall b ensures b in c'.fans[n.id].branches <==> InFan(f, n.id, b) {
      if b in n.branches {
        var i :| 0 <= i < |n.branches| && n.branches[i] == b;
        assert BranchOk(f, n.id, n.branches[i]);
      }
    }
  }

  lemma BranchNew(f: Flow, c: Control, n: Node, i: nat)
    requires i < |n.branches| && Distinct(n.branches) && FanPartial(f, c, n, i)
    ensures Plain(n.branches[i]) !in c.tasks && Plain(n.branches[i]) !in c.children
  {
  }

  /** The next branch started: an instance was added under its key. */
  lemma BranchStarted(f: Flow, c: Control, c': Control, n: Node, i: nat)
    requires i < |n.branches| && FanPartial(f, c, n, i)
    requires c'.fans == c.fans && c'.maps == c.maps && c'.awaits == c.awaits
    requires BranchAdded(f, c, c', n.id, n.branches[i])
    ensures FanPartial(f, c', n, i + 1)
  {
    var b := n.branches[i];
    assert n.branches[..i + 1] == n.branches[..i] + [b];
    assert b in n.branches[..i + 1];
    forall j | 0 <= j < i + 1 ensures BranchOpen(c', n.branches[j]) {
      if j < i { assert BranchOpen(c, n.branches[j]); }
    }
  }

  predicate BranchAdded(f: Flow, c: Control, c': Control, fan: string, b: string) {
    && b in f.byId
    && (|| (&& Plain(b) in c'.tasks && c'.tasks == c.tasks[Plain(b) := c'.tasks[Plain(b)]] && c'.children == c.children
            && TaskOk(f, Plain(b), c'.tasks[Plain(b)], fan) && f.byId[b].typ.TaskNode?)
        || (&& Plain(b) in c'.children && c'.children == c.children[Plain(b) := c'.children[Plain(b)]] && c'.tasks == c.tasks
            && ChildOk(f, Plain(b), c'.children[Plain(b)], fan) && f.byId[b].typ.SubflowNode?))
  }

  /** What starting a branch task leaves. */
  lemma BranchTask(f: Flow, c: Control, n: Node, i: nat, now: int)
    requires FanoutOk(f, n) && i < |n.branches| && FanPartial(f, c, n, i) && Numbered(c) && Timed(f, c)
    requires var b := n.branches[i]; b in f.byId && f.byId[b].id == b && f.byId[b].typ.TaskNode?
    ensures var bn := f.byId[n.branches[i]];
            var e := Attempt(bn, Plain(bn.id), n.id, 0, Null, None, "", c.n + 1, 1);
            var c' := ScheduleControl(c, bn, e, now);
            && ScheduleGuard(f, c, e)
            && FanPartial(f, c', n, i + 1) && Numbered(c') && Timed(f, c') && c'.children == c.children
  {
    var bn := f.byId[n.branches[i]];
    var e := Attempt(bn, Plain(bn.id), n.id, 0, Null, None, "", c.n + 1, 1);
    BranchNew(f, c, n, i);
    FanHasNoMap(f, c, n, i);
    hide FanoutOk, FanPartial, Numbered, Timed, ScheduleControl;
    ScheduleShape(f, c, bn, e, now);
    assert Timed(f, ScheduleControl(c, bn, e, now)) by { TimedParts(f, c); ScheduleKeeps(f, c, bn, e, now); }
    BranchStarted(f, c, ScheduleControl(c, bn, e, now), n, i);
  }

  lemma TimedParts(f: Flow, c: Control)
    requires Timed(f, c)
    ensures forall k | k in c.tasks :: TaskTimed(f, c, k)
    ensures forall a | a in c.awaits :: AwaitTimed(c, a)
  {
  }

  /** What starting a branch child leaves. */
  lemma BranchChild(f: Flow, s: State, n: Node, i: nat)
    requires FanoutOk(f, n) && i < |n.branches| && FanPartial(f, s.ctl, n, i) && Numbered(s.ctl) && Timed(f, s.ctl)
    requires var b := n.branches[i]; b in f.byId && f.byId[b].id == b && f.byId[b].typ.SubflowNode?
    ensures var bn := f.byId[n.branches[i]];
            var ch := ChildOf(s, bn, n.id, 0);
            var c' := ChildControl(s.ctl, Plain(bn.id), ch);
            && ChildGuard(s, Plain(bn.id), ch)
            && FanPartial(f, c', n, i + 1) && Numbered(c') && Timed(f, c')
            && c'.children == s.ctl.children[Plain(bn.id) := ch]
    ensures ItemAt(s.ctl, n.id, 0) == Null
  {
    var bn := f.byId[n.branches[i]];
    var ch := ChildOf(s, bn, n.id, 0);
    BranchNew(f, s.ctl, n, i);
    FanHasNoMap(f, s.ctl, n, i);
    hide FanoutOk, FanPartial, Numbered, Timed, ChildControl;
    ChildShape(s, Plain(bn.id), ch);
    StillAllTimed(f, s.ctl, ChildControl(s.ctl, Plain(bn.id), ch));
    BranchStarted(f, s.ctl, ChildControl(s.ctl, Plain(bn.id), ch), n, i);
  }

  lemma FanRunning(f: Flow, c: Control, n: Node)
    requires n.id in f.byId && f.byId[n.id] == n && n.typ.FanoutNode? && FanoutOk(f, n)
    requires FanPartial(f, c, n, |n.branches|)
    ensures FanOpen(f, c, n.id)
  {
    assert n.branches[..|n.branches|] == n.branches;
    forall b | b in n.branches ensures b in c.fans[n.id].branches {
      var i :| 0 <= i < |n.branches| && n.branches[i] == b;
      assert BranchOk(f, n.id, n.branches[i]);
    }
    hide BranchOk, TaskOk, ChildOk, Distinct, PolicyOk;
    forall b | b in c.fans[n.id].branches ensures BranchOpen(c, b) {
      assert InFan(f, n.id, b);
      assert b in n.branches;
    }
  }

  lemma FanUndecided(f: Flow, c: Control, n: Node)
    requires n.id in f.byId && f.byId[n.id] == n && FanoutOk(f, n) && n.id in c.fans
    requires forall b | b in c.fans[n.id].branches :: c.fans[n.id].branches[b].Pending?
    ensures Undecided(f, c, n.id)
  {
    hide BranchOk;
    var waits := WaitFor(f, n.id);
    AllPending(waits, c.fans[n.id].branches);
    assert |waits| > 0 && PolicyOk(f.byId[f.joinOf[n.id]].policy, |waits|);
  }

  lemma {:induction false} AllPending(waits: seq<string>, branches: map<string, BranchStatus>)
    requires forall b | b in branches :: branches[b].Pending?
    ensures Count(waits, branches, Pending) == |waits| && Count(waits, branches, Succeeded) == 0
  {
    if |waits| > 0 { AllPending(waits[..|waits| - 1], branches); }
  }

  // ---- Maps ----

  lemma MapBegun(f: Flow, c: Control, n: Node, items: seq<Json>)
    requires Free(c) && n.id in f.byId && f.byId[n.id] == n && n.typ.MapNode?
    ensures MapOpen(f, GraphControl(c, MapStarted(n.id, items, n.maxParallel)), n.id)
  {
    var c' := GraphControl(c, MapStarted(n.id, items, n.maxParallel));
    assert c'.maps.Keys == {n.id};
  }

  /** A map all of whose items are done has no open instance, and the other way round. */
  lemma MapDrained(f: Flow, c: Control, m: string)
    requires MapOpen(f, c, m) && c.maps[m].done == |c.maps[m].items|
    ensures c.tasks == map[] && c.children == map[]
  {
    assert |c.tasks.Keys| == 0 && |c.children.Keys| == 0;
  }

  predicate MapRoom(c: Control, m: string)
    requires m in c.maps
  {
    && c.maps[m].next < |c.maps[m].items|
    && c.maps[m].next - c.maps[m].done < ParallelLimit(c.maps[m].maxParallel)
  }

  lemma ItemKeyNew(f: Flow, c: Control, m: string)
    requires MapOpen(f, c, m)
    ensures Item(m, c.maps[m].next) !in c.tasks && Item(m, c.maps[m].next) !in c.children
  {
  }

  /** A map counts one more started item. */
  lemma CountedOneMore(c: Control, c': Control, m: string)
    requires m in c.maps && MapCounted(c, m) && MapRoom(c, m)
    requires c'.maps == ItemStarted(c, m, m, c.maps[m].next) && |c'.tasks| + |c'.children| == |c.tasks| + |c.children| + 1
    ensures m in c'.maps && MapCounted(c', m) && c'.maps[m] == c.maps[m].(next := c.maps[m].next + 1)
    ensures c'.maps.Keys == c.maps.Keys
  {
  }

  /** A started item is one more open instance. */
  lemma ItemTaskAdded(f: Flow, c: Control, c': Control, m: string, t: Task)
    requires MapOpen(f, c, m) && MapRoom(c, m) && f.byId[m].flow == ""
    requires c'.tasks == c.tasks[Item(m, c.maps[m].next) := t] && TaskOk(f, Item(m, c.maps[m].next), t, m)
    requires t.item == c.maps[m].items[c.maps[m].next]
    requires c'.children == c.children && c'.fans == c.fans && c'.awaits == c.awaits
    requires c'.maps == ItemStarted(c, m, m, c.maps[m].next)
    ensures MapOpen(f, c', m) && c'.maps[m] == c.maps[m].(next := c.maps[m].next + 1)
  {
    hide TaskOk, ChildOk, MapCounted, ItemStarted;
    var k := Item(m, c.maps[m].next);
    ItemKeyNew(f, c, m);
    assert c'.tasks.Keys == c.tasks.Keys + {k};
    assert |c'.tasks| == |c.tasks| + 1;
    CountedOneMore(c, c', m);
  }

  lemma ItemChildAdded(f: Flow, c: Control, c': Control, m: string, ch: Child)
    requires MapOpen(f, c, m) && MapRoom(c, m) && f.byId[m].flow != ""
    requires c'.children == c.children[Item(m, c.maps[m].next) := ch] && ChildOk(f, Item(m, c.maps[m].next), ch, m)
    requires c'.tasks == c.tasks && c'.fans == c.fans && c'.awaits == c.awaits
    requires c'.maps == ItemStarted(c, m, m, c.maps[m].next)
    ensures MapOpen(f, c', m) && c'.maps[m] == c.maps[m].(next := c.maps[m].next + 1)
  {
    hide TaskOk, ChildOk, MapCounted, ItemStarted;
    var k := Item(m, c.maps[m].next);
    ItemKeyNew(f, c, m);
    assert c'.children.Keys == c.children.Keys + {k};
    assert |c'.children| == |c.children| + 1;
    CountedOneMore(c, c', m);
  }

  // ---- Small facts ----

  lemma ReadyRuns(f: Flow, s: State)
    requires Ready(f, s)
    ensures Running(s) && s.ctl.children == map[] && Shaped(f, s.data)
  {
  }

  /** Only node outcomes, updates and children change channels or counters; only entries change steps. */
  lemma DataOkWait(f: Flow, d: Data, c: Control, e: WaitEvent, time: int)
    requires DataOk(f, d) && !e.ChildDone?
    ensures DataOk(f, WaitData(d, c, e, time))
  {
    hide Typed, InBudget, StepsBounded;
  }

  lemma DataOkGraph(f: Flow, d: Data, c: Control, e: GraphEvent)
    requires DataOk(f, d)
    ensures DataOk(f, GraphData(d, c, e)) && GraphData(d, c, e).steps == d.steps
  {
    hide Typed, InBudget, StepsBounded;
  }

  lemma DataOkBranch(f: Flow, d: Data, fan: string, b: string)
    requires DataOk(f, d) && fan in f.byId && d.steps + 1 <= MaxSteps(f) + |f.byId[fan].branches| + 1
    ensures DataOk(f, LifeData(d, Entered(b)))
  {
    hide MaxSteps, Typed, InBudget;
  }

  lemma FanStartedRest(f: Flow, c: Control, c': Control, n: Node)
    requires Free(c) && Numbered(c) && c' == GraphControl(c, FanoutStarted(n.id, n.next, n.branches))
    ensures Numbered(c') && Timed(f, c') && c'.children == map[]
  {
  }

  lemma FanPendings(f: Flow, c: Control, n: Node)
    requires FanPartial(f, c, n, |n.branches|)
    ensures n.id in c.fans && forall b | b in c.fans[n.id].branches :: c.fans[n.id].branches[b].Pending?
  {
  }

  lemma FanHasNoMap(f: Flow, c: Control, n: Node, i: nat)
    requires i <= |n.branches| && FanPartial(f, c, n, i)
    ensures c.maps == map[]
  {
  }

  lemma StillAllTimed(f: Flow, c: Control, c': Control)
    requires Timed(f, c) && c'.tasks == c.tasks && c'.awaits == c.awaits && TimersKept(c, c')
    ensures Timed(f, c')
  {
    hide TaskTimed;
    forall k | k in c.tasks ensures TaskTimed(f, c', k) { StillTimed(f, c, c', k); }
  }

  // ---- Items of a map ----

  /** What starting the next item of a map as a task leaves. */
  lemma ItemTask(f: Flow, c: Control, n: Node, now: int)
    requires n.id in f.byId && f.byId[n.id] == n && MapOpen(f, c, n.id) && MapRoom(c, n.id) && n.flow == ""
    requires Numbered(c) && Timed(f, c)
    ensures var m := c.maps[n.id];
            var e := Attempt(n, Item(n.id, m.next), n.id, m.next, m.items[m.next], None, "", c.n + 1, 1);
            var c' := ScheduleControl(c, n, e, now);
            && ScheduleGuard(f, c, e)
            && MapOpen(f, c', n.id) && Numbered(c') && Timed(f, c') && c'.children == c.children
            && c'.maps[n.id] == m.(next := m.next + 1)
  {
    var m := c.maps[n.id];
    var e := Attempt(n, Item(n.id, m.next), n.id, m.next, m.items[m.next], None, "", c.n + 1, 1);
    var c' := ScheduleControl(c, n, e, now);
    ItemKeyNew(f, c, n.id);
    assert ScheduleGuard(f, c, e);
    ScheduleShape(f, c, n, e, now);
    TimedParts(f, c);
    ScheduleKeeps(f, c, n, e, now);
    hide ScheduleControl, ScheduleGuard, MapOpen, Numbered, Timed, ItemStarted;
    ItemTaskAdded(f, c, c', n.id, c'.tasks[e.key]);
  }

  /** What starting the next item of a map as a child leaves. */
  lemma ItemChild(f: Flow, s: State, n: Node)
    requires n.id in f.byId && f.byId[n.id] == n && MapOpen(f, s.ctl, n.id) && MapRoom(s.ctl, n.id) && n.flow != ""
    requires Numbered(s.ctl) && Timed(f, s.ctl)
    ensures var m := s.ctl.maps[n.id];
            var ch := ChildOf(s, n, n.id, m.next);
            var c' := ChildControl(s.ctl, Item(n.id, m.next), ch);
            && ChildGuard(s, Item(n.id, m.next), ch)
            && MapOpen(f, c', n.id) && Numbered(c') && Timed(f, c')
            && c'.children == s.ctl.children[Item(n.id, m.next) := ch]
            && c'.maps[n.id] == m.(next := m.next + 1)
  {
    var m := s.ctl.maps[n.id];
    var ch := ChildOf(s, n, n.id, m.next);
    var c' := ChildControl(s.ctl, Item(n.id, m.next), ch);
    ItemKeyNew(f, s.ctl, n.id);
    assert ChildGuard(s, Item(n.id, m.next), ch);
    ChildShape(s, Item(n.id, m.next), ch);
    StillAllTimed(f, s.ctl, c');
    hide ChildControl, ChildGuard, MapOpen, Numbered, Timed, ItemStarted;
    ItemChildAdded(f, s.ctl, c', n.id, ch);
  }

  lemma MapLeft(f: Flow, c: Control, m: string)
    requires MapOpen(f, c, m) && c.tasks == map[] && c.children == map[] && Numbered(c)
    ensures Free(GraphControl(c, MapCompleted(m))) && Numbered(GraphControl(c, MapCompleted(m)))
  {
    var c' := GraphControl(c, MapCompleted(m));
    assert c'.maps.Keys == {};
  }

  /** Map m is being aborted: whatever is open belongs to it. */
  predicate MapClosing(c: Control, m: string) {
    && c.maps.Keys == {m} && c.fans == map[] && c.awaits == map[]
    && (forall k | k in c.tasks :: c.tasks[k].owner == m)
    && (forall k | k in c.children :: c.children[k].owner == m)
  }

  lemma MapAbortLeft(c: Control, m: string, index: nat, cancel: set<ChildId>)
    requires MapClosing(c, m) && c.tasks == map[] && Numbered(c)
    ensures var c' := GraphControl(c, MapAborted(m, index, cancel)); Free(c') && Numbered(c')
  {
    var c' := GraphControl(c, MapAborted(m, index, cancel));
    assert c'.maps.Keys == {};
    assert c'.children.Keys == {};
  }

  // ---- Joins ----

  /** Everything open belongs to fan-out fan. */
  predicate FanClosing(c: Control, fan: string) {
    && c.fans.Keys == {fan} && c.maps == map[] && c.awaits == map[]
    && (forall k | k in c.tasks :: c.tasks[k].owner == fan)
    && (forall k | k in c.children :: c.children[k].owner == fan)
  }

  lemma FanOpenCloses(f: Flow, c: Control, fan: string)
    requires FanOpen(f, c, fan)
    ensures FanClosing(c, fan) && c.fans[fan].join == f.byId[fan].next
  {
  }

  lemma JoinLeft(c: Control, fan: string, e: GraphEvent)
    requires FanClosing(c, fan) && c.tasks == map[] && Numbered(c) && e.JoinDone? && e.fanout == fan
    ensures Free(GraphControl(c, e)) && Numbered(GraphControl(c, e))
  {
    var c' := GraphControl(c, e);
    assert c'.fans.Keys == {};
    assert c'.children.Keys == {};
  }

  /** c' is c once instance k was cancelled. */
  lemma TaskCancelled(c: Control, k: Key)
    requires k in c.tasks
    ensures var c' := Settled(c, k, Dropped);
            && c'.tasks == c.tasks - {k} && c'.children == c.children && c'.maps == c.maps && c'.awaits == c.awaits
            && c'.timers == c.timers && c'.n == c.n
            && c'.fans.Keys == c.fans.Keys && (forall x | x in c.fans :: c'.fans[x].join == c.fans[x].join)
  {
  }

  lemma NotSettling(f: Flow, s: State)
    requires Terminal(s.phase)
    ensures !Settling(f, s)
  {
  }

  lemma NotFinished(f: Flow, s: State)
    requires !Terminal(s.phase)
    ensures !Finished(f, s)
  {
  }

  lemma FreeParts(c: Control)
    requires Free(c)
    ensures c.tasks == map[] && c.fans == map[] && c.maps == map[] && c.awaits == map[] && c.children == map[]
  {
  }

  lemma MapBegunRest(f: Flow, c: Control, n: Node, items: seq<Json>)
    requires Free(c) && Numbered(c)
    ensures var c' := GraphControl(c, MapStarted(n.id, items, n.maxParallel));
            Numbered(c') && Timed(f, c') && c'.children == map[]
  {
  }

  lemma MapCount(f: Flow, c: Control, m: string)
    requires MapOpen(f, c, m)
    ensures m in c.maps && c.maps.Keys == {m} && MapCounted(c, m)
  {
  }

  lemma FanKnown(f: SoundFlow, c: Control, fan: string)
    requires FanOpen(f, c, fan)
    ensures fan in c.fans && fan in f.byId && f.byId[fan].id == fan && FanoutOk(f, f.byId[fan])
    ensures c.fans[fan].join == f.byId[fan].next && c.fans[fan].join == f.joinOf[fan]
    ensures var j := f.byId[f.byId[fan].next];
            j.id == f.byId[fan].next && j.typ.JoinNode? && RouteOk(f, j.next) && RouteOk(f, j.onFailure)
  {
    assert Known(f, fan);
    assert Known(f, f.byId[fan].next);
  }

  /** Fan-out x of c' is that of c, except that branches with an open task may have been dropped. */
  predicate OnlyDropped(c: Control, c': Control, x: string) {
    && x in c.fans && x in c'.fans && c'.fans[x].join == c.fans[x].join
    && (forall b | b in c.fans[x].branches ::
          && b in c'.fans[x].branches
          && (c'.fans[x].branches[b] == c.fans[x].branches[b] || (c'.fans[x].branches[b].Dropped? && HasTask(c, b))))
  }

  predicate HasTask(c: Control, b: string) { exists k | k in c.tasks :: c.tasks[k].node == b }

  lemma NoneDropped(c: Control, x: string)
    requires x in c.fans
    ensures OnlyDropped(c, c, x)
  {
  }

  lemma OneMoreDropped(c: Control, now: Control, k: Key, x: string)
    requires x in now.fans && OnlyDropped(c, now, x) && k in now.tasks && k in c.tasks && c.tasks[k] == now.tasks[k]
    ensures OnlyDropped(c, Settled(now, k, Dropped), x)
  {
    assert HasTask(c, c.tasks[k].node);
    hide HasTask;
  }

  /** Cancelling the open tasks of a fan-out changes neither its verdict nor which branches succeeded. */
  lemma JoinStillDecided(f: Flow, s: State, t: State, fan: string, succeeded: seq<string>, failed: seq<string>, ok: bool)
    requires FanOpen(f, s.ctl, fan) && JoinGuard(f, s, fan, succeeded, failed, ok) && OnlyDropped(s.ctl, t.ctl, fan)
    requires FanoutOk(f, f.byId[fan]) && f.byId[fan].id == fan
    ensures JoinGuard(f, t, fan, succeeded, failed, ok)
  {
    var waits := WaitFor(f, fan);
    var before, after := s.ctl.fans[fan].branches, t.ctl.fans[fan].branches;
    forall w | w in waits
      ensures w in before && w in after && (after[w] == before[w] || (before[w].Pending? && after[w].Dropped?))
    {
      var i :| 0 <= i < |waits| && waits[i] == w;
      assert InFan(f, fan, waits[i]);
      if HasTask(s.ctl, w) {
        var k :| k in s.ctl.tasks && s.ctl.tasks[k].node == w;
        assert k == Plain(w) && BranchOpen(s.ctl, w);
      }
    }
    ThoseLater(waits, before, after);
    VerdictStable(f.byId[f.joinOf[fan]].policy, waits, before, after);
  }

  /** The next branch of a starting fan-out may be entered. */
  lemma BranchEntered(f: Flow, s: State, n: Node, i: nat)
    requires FanoutOk(f, n) && i < |n.branches| && FanPartial(f, s.ctl, n, i)
    ensures EnterGuard(f, s, n.branches[i]) && !Free(s.ctl)
  {
    assert BranchOk(f, n.id, n.branches[i]);
    BranchNew(f, s.ctl, n, i);
    assert EntersFan(f, s.ctl, n.id, n.branches[i]);
  }

  lemma JoinEntered(f: Flow, s: State, fan: string, join: string, succeeded: seq<string>, failed: seq<string>, ok: bool)
    requires fan in s.ctl.fans && s.ctl.tasks == map[] && s.ctl.fans[fan].join == join && JoinGuard(f, s, fan, succeeded, failed, ok)
    ensures EnterGuard(f, s, join) && !Free(s.ctl)
  {
    hide Verdict, Those, WaitFor;
    assert EntersFan(f, s.ctl, fan, join);
  }

  lemma BudgetKept(f: Flow, d: Data)
    requires DataOk(f, d)
    ensures InBudget(f, d.counters)
  {
  }
}
