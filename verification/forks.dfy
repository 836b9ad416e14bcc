/** What a fork carries over from its source, and how what was in flight starts again. */
module Forks {
  import opened Values
  import opened Flows
  import opened Fold
  import opened Invariants
  import opened Guards
  import opened ControlSteps
  import opened Outcomes
  import Memory

  /** Task t is u started again; n is the last number the source allocated. */
  predicate TaskAgain(u: Task, t: Task, n: nat) {
    && t.generation > n && t.attempt == 1 && t.status.TaskScheduled?
    && t.node == u.node && t.owner == u.owner && t.index == u.index && t.item == u.item
    && t.resume == u.resume && t.resumedBy == u.resumedBy
  }

  /** Child t is u started again by execution exec. */
  predicate ChildAgain(exec: string, u: Child, t: Child, n: nat) {
    && t.id.parent == exec && t.id.n > n
    && t.abandon == u.abandon && t.node == u.node && t.owner == u.owner && t.index == u.index
  }

  predicate TaskCarried(c0: Control, c: Control, k: Key, left: set<Key>)
    requires k in c0.tasks && k in c.tasks
  {
    if k in left || c0.tasks[k].status.TaskInterrupted? then c.tasks[k] == c0.tasks[k]
    else TaskAgain(c0.tasks[k], c.tasks[k], c0.n)
  }

  predicate ChildCarried(exec: string, c0: Control, kids: map<Key, Child>, k: Key, left: set<Key>)
    requires k in c0.children && k in kids
  {
    if k in left then kids[k] == c0.children[k] else ChildAgain(exec, c0.children[k], kids[k], c0.n)
  }

  /** Tasks of a fork of control part c0, while those in left have not started again. */
  predicate TasksCarried(f: Flow, c0: Control, c: Control, left: set<Key>) {
    && c.tasks.Keys == c0.tasks.Keys
    && (forall k | k in c0.tasks && k in c.tasks :: TaskCarried(c0, c, k, left))
    && (forall k | k in c.tasks && k !in left :: TaskTimed(f, c, k))
  }

  /** Children of a fork of control part c0, while those in left have not started again. */
  predicate ChildrenCarried(exec: string, c0: Control, kids: map<Key, Child>, left: set<Key>) {
    kids.Keys == c0.children.Keys && forall k | k in c0.children && k in kids :: ChildCarried(exec, c0, kids, k, left)
  }

  /** Every await of the fork has its own new timer. */
  predicate AwaitsAgain(c0: Control, c: Control) {
    forall a | a in c.awaits :: AwaitTimed(c, a) && c.awaits[a].timer > c0.n
  }

  /** What a fork shares with its source throughout: the same is open, and no timer is the source's. */
  ghost predicate Forking(f: Flow, c0: Control, c: Control) {
    && Held(f, c) && Numbered(c) && c.n >= c0.n && c.fans == c0.fans && c.maps == c0.maps
    && c.awaits.Keys == c0.awaits.Keys && (forall a | a in c0.awaits && a in c.awaits :: c.awaits[a].signal == c0.awaits[a].signal)
    && (forall i | i in c.timers :: i > c0.n)
  }

  /** The data part of the source with the edit of the fork. */
  function Edited(f: Flow, d: Data, writes: map<string, Json>, id: string, now: int): Data {
    if |writes| == 0 then d
    else d.(channels := Written(f, d.channels, writes), updateIds := Memory.Remember(d.updateIds, id, now))
  }

  /** s is a live fork of src: the same data with the edit applied, and all that was in flight started again. */
  ghost predicate ForkOf(f: Flow, src: State, s: State, writes: map<string, Json>, id: string, now: int) {
    && s.phase.Live? && s.flow == src.flow && s.input == src.input && s.data == Edited(f, src.data, writes, id, now)
    && Forking(f, src.ctl, s.ctl)
    && TasksCarried(f, src.ctl, s.ctl, {}) && ChildrenCarried(s.exec, src.ctl, s.ctl.children, {}) && AwaitsAgain(src.ctl, s.ctl)
  }

  // ---- Starting ----

  lemma ForkBegins(f: Flow, src: State, s: State)
    requires Resting(f, src) && s.ctl == src.ctl.(timers := map[])
    ensures Forking(f, src.ctl, s.ctl) && TasksCarried(f, src.ctl, s.ctl, src.ctl.tasks.Keys)
    ensures ChildrenCarried(s.exec, src.ctl, s.ctl.children, src.ctl.children.Keys)
  {
    hide Held, Timed, DataOk, Quiet, StepsOk, OwnChildren;
    HeldSame(f, src.ctl, s.ctl);
    hide TaskTimed;
  }

  lemma ForkResting(f: Flow, src: State)
    requires Boundary(f, src) && !Terminal(src.phase)
    ensures Resting(f, src) && Running(src) && OwnChildren(src)
  {
  }

  lemma ForkedGuard(f: Flow, src: State, exec: string, from: string, atSeq: nat)
    requires Boundary(f, src) && src.exec != exec
    ensures Guard(f, New(exec), OfLife(Forked(exec, from, atSeq, src)))
  {
    hide Boundary;
  }

  lemma ForkedState(f: Flow, src: State, exec: string, from: string, atSeq: nat, now: int)
    ensures var s := After(f, New(exec), OfLife(Forked(exec, from, atSeq, src)), now);
            && s.exec == exec && s.phase == src.phase && s.data == src.data && s.ctl == src.ctl.(timers := map[])
            && s.flow == src.flow && s.input == src.input && Exists(s)
            && (Finished(f, src) ==> Finished(f, s))
  {
  }

  // ---- Tasks ----

  /** The event that starts task k again. */
  function Restart(c: Control, k: Key, n: Node): (e: NodeEvent)
    requires k in c.tasks
    ensures e.Scheduled?
  {
    var t := c.tasks[k];
    Attempt(n, k, t.owner, t.index, t.item, t.resume, t.resumedBy, c.n + 1, 1)
  }

  lemma TaskRestarts(f: SoundFlow, c0: Control, c: Control, k: Key, left: set<Key>, now: int)
    requires Forking(f, c0, c) && TasksCarried(f, c0, c, left) && k in left && k in c.tasks
    requires k in c0.tasks && !c0.tasks[k].status.TaskInterrupted?
    ensures c.tasks[k].node in f.byId && f.byId[c.tasks[k].node].id == c.tasks[k].node == k.node
    ensures var n := f.byId[c.tasks[k].node];
            var e := Restart(c, k, n);
            var c' := ScheduleControl(c, n, e, now);
            && ScheduleGuard(f, c, e)
            && Forking(f, c0, c') && TasksCarried(f, c0, c', left - {k}) && c'.children == c.children && c'.awaits == c.awaits
  {
    hide Held, ScheduleControl, Numbered, ScheduleGuard, NodeKnown, TaskTimed, TimersKept, Sound;
    OpenTask(f, c, k);
    NodeName(f, c.tasks[k].node);
    var n := f.byId[c.tasks[k].node];
    var e := Restart(c, k, n);
    var c' := ScheduleControl(c, n, e, now);
    assert e.node == c.tasks[k].node;
    AgainReplaces(f, c, k, n, e, now);
    HeldReplaced(f, c, c', k);
    ScheduleShape(f, c, n, e, now);
    hide Replaced;
    TaskMoved(f, c0, c, c', k, left);
  }

  /** Task k started again: one less is left. */
  lemma TaskMoved(f: Flow, c0: Control, c: Control, c': Control, k: Key, left: set<Key>)
    requires TasksCarried(f, c0, c, left) && k in left && k in c0.tasks && !c0.tasks[k].status.TaskInterrupted?
    requires k in c'.tasks && c'.tasks == c.tasks[k := c'.tasks[k]] && TimersKept(c, c') && TaskTimed(f, c', k)
    requires k in c.tasks && TaskAgain(c.tasks[k], c'.tasks[k], c0.n)
    ensures TasksCarried(f, c0, c', left - {k})
  {
    assert TaskCarried(c0, c, k, left);
    forall l | l in c'.tasks && l !in left - {k} ensures TaskTimed(f, c', l) {
      hide TaskTimed;
      if l != k { StillTimed(f, c, c', l); }
    }
    hide TaskTimed, TimersKept;
    forall l | l in c0.tasks && l in c'.tasks ensures TaskCarried(c0, c', l, left - {k}) {
      assert TaskCarried(c0, c, l, left);
    }
  }

  /** An interrupted task stays as it is. */
  lemma TaskStays(f: SoundFlow, c0: Control, c: Control, k: Key, left: set<Key>)
    requires Forking(f, c0, c) && TasksCarried(f, c0, c, left) && k in c.tasks
    requires k in c0.tasks && c0.tasks[k].status.TaskInterrupted?
    ensures TasksCarried(f, c0, c, left - {k})
  {
    hide Held, Numbered, Sound, NodeKnown;
    assert TaskCarried(c0, c, k, left);
    assert TaskTimed(f, c, k) by { OpenTask(f, c, k); }
    hide TaskTimed;
    forall l | l in c0.tasks && l in c.tasks ensures TaskCarried(c0, c, l, left - {k}) {
      assert TaskCarried(c0, c, l, left);
    }
  }

  // ---- Awaits ----

  lemma AwaitAgain(f: SoundFlow, c0: Control, c: Control, a: string, now: int)
    requires Forking(f, c0, c) && TasksCarried(f, c0, c, {}) && a in c.awaits
    ensures a in f.byId && f.byId[a].id == a && AwaitReady(c, a) && f.byId[a].typ.AwaitNode? && RouteOk(f, f.byId[a].next)
    ensures a in c0.awaits && c0.awaits[a].signal == f.byId[a].signal && c.awaits.Keys == {a}
    ensures var c' := AwaitControl(c, f.byId[a], now);
            && Forking(f, c0, c') && TasksCarried(f, c0, c', {}) && c'.children == c.children && AwaitsAgain(c0, c')
  {
    HeldAwait(f, c, a);
    assert Known(f, a);
    hide Held;
    var c' := AwaitControl(c, f.byId[a], now);
    EnterAwait(f, c, f.byId[a], now);
    assert Held(f, c') by { AwaitHolds(f, c', a); }
    hide Numbered, FanoutOk, RuleOk, RouteOk;
  }

  lemma AwaitHolds(f: Flow, c: Control, a: string)
    requires OnAwait(f, c, a)
    ensures Held(f, c)
  {
    hide OnTask, OnChild, OnFan, OnMap;
  }

  // ---- Children ----

  /** c' is c with another child of the same node, owner and item in the place of instance k. */
  predicate ChildReplaced(c: Control, c': Control, k: Key) {
    && k in c.children && k in c'.children && c'.children == c.children[k := c'.children[k]]
    && c'.children[k].node == c.children[k].node && c'.children[k].owner == c.children[k].owner
    && c'.children[k].index == c.children[k].index && c'.children[k].abandon == c.children[k].abandon
    && c'.tasks == c.tasks && c'.fans == c.fans && c'.maps == c.maps && c'.awaits == c.awaits
  }

  lemma HeldChildReplaced(f: Flow, c: Control, c': Control, k: Key)
    requires Held(f, c) && ChildReplaced(c, c', k)
    ensures Held(f, c')
  {
    hide OnTask, OnChild, OnAwait, OnFan, OnMap, ChildReplaced;
    if node :| OnChild(f, c, node) {
      OneChildReplaced(f, c, c', k, node);
    } else if fan :| OnFan(f, c, fan) {
      FanChildReplaced(f, c, c', k, fan);
    } else if m :| OnMap(f, c, m) {
      MapChildReplaced(f, c, c', k, m);
    } else {
      NoChildElse(f, c, c', k);
    }
  }

  lemma NoChildElse(f: Flow, c: Control, c': Control, k: Key)
    requires ChildReplaced(c, c', k)
    ensures forall node :: !OnTask(f, c, node) && !OnAwait(f, c, node)
  {
  }

  lemma OneChildReplaced(f: Flow, c: Control, c': Control, k: Key, node: string)
    requires OnChild(f, c, node) && ChildReplaced(c, c', k)
    ensures OnChild(f, c', node)
  {
  }

  lemma FanChildReplaced(f: Flow, c: Control, c': Control, k: Key, fan: string)
    requires OnFan(f, c, fan) && ChildReplaced(c, c', k)
    ensures OnFan(f, c', fan)
  {
    hide Verdict, TaskOk, WaitFor;
    assert ChildOk(f, k, c.children[k], fan);
    forall b | b in c'.fans[fan].branches ensures c'.fans[fan].branches[b].Pending? <==> BranchOpen(c', b) {
      assert c.fans[fan].branches[b].Pending? <==> BranchOpen(c, b);
    }
  }

  lemma MapChildReplaced(f: Flow, c: Control, c': Control, k: Key, m: string)
    requires OnMap(f, c, m) && ChildReplaced(c, c', k)
    ensures OnMap(f, c', m)
  {
    hide TaskOk, ParallelLimit;
    assert c'.children.Keys == c.children.Keys;
    assert |c'.children| == |c.children|;
    assert ChildOk(f, k, c.children[k], m) && ChildOk(f, k, c'.children[k], m);
    hide ChildOk;
  }

  /** What an open child is. */
  lemma OpenChildOf(f: SoundFlow, c: Control, k: Key)
    requires Held(f, c) && k in c.children
    ensures ChildOk(f, k, c.children[k], c.children[k].owner) && f.byId[k.node].id == k.node
    ensures !IsItem(c, c.children[k].owner, c.children[k].node) ==> k.Plain? && c.children[k].owner != c.children[k].node
    ensures IsItem(c, c.children[k].owner, c.children[k].node) ==>
              k == Item(c.children[k].node, c.children[k].index) && c.children[k].index < c.maps[c.children[k].owner].next
              && c.maps[c.children[k].owner].next <= |c.maps[c.children[k].owner].items|
  {
    HeldChild(f, c, k);
    NamedNodes(f);
    hide Sound, Held, Undecided, MapBusy, TaskOk;
    assert ChildOk(f, k, c.children[k], c.children[k].owner);
    NodeName(f, k.node);
  }

  lemma NamedNodes(f: SoundFlow)
    ensures "" !in f.byId
  {
  }

  lemma NodeName(f: SoundFlow, node: string)
    requires node in f.byId
    ensures f.byId[node].id == node
  {
    assert Known(f, node);
    hide NodeOk;
  }

  /** The child that starts open child k again. */
  function Rebirth(f: Flow, s: State, k: Key): Child
    requires k in s.ctl.children && s.ctl.children[k].node in f.byId
  {
    var ch := s.ctl.children[k];
    ChildOf(s, f.byId[ch.node], ch.owner, ch.index)
  }

  lemma RebirthReplaces(f: SoundFlow, s: State, k: Key)
    requires Held(f, s.ctl) && k in s.ctl.children && s.ctl.children[k].id.parent != s.exec
    ensures s.ctl.children[k].node in f.byId && f.byId[s.ctl.children[k].node].id == s.ctl.children[k].node
    ensures var t := Rebirth(f, s, k);
            ChildGuard(s, k, t) && ChildReplaced(s.ctl, ChildControl(s.ctl, k, t), k)
  {
    hide Held, Sound;
    OpenChildOf(f, s.ctl, k);
  }

  lemma ChildRestarts(f: SoundFlow, c0: Control, s: State, k: Key, left: set<Key>)
    requires Forking(f, c0, s.ctl) && TasksCarried(f, c0, s.ctl, {}) && ChildrenCarried(s.exec, c0, s.ctl.children, left)
    requires AwaitsAgain(c0, s.ctl)
    requires k in left && k in s.ctl.children && k in c0.children && c0.children[k].id.parent != s.exec
    ensures s.ctl.children[k].node in f.byId && f.byId[s.ctl.children[k].node].id == s.ctl.children[k].node
    ensures var t := Rebirth(f, s, k);
            var c' := ChildControl(s.ctl, k, t);
            && ChildGuard(s, k, t)
            && Forking(f, c0, c') && TasksCarried(f, c0, c', {}) && ChildrenCarried(s.exec, c0, c'.children, left - {k})
            && AwaitsAgain(c0, c') && c'.children == s.ctl.children[k := t]
  {
    hide Held, Numbered, ChildGuard, TasksCarried, Sound, ChildControl;
    assert ChildCarried(s.exec, c0, s.ctl.children, k, left);
    RebirthReplaces(f, s, k);
    var t := Rebirth(f, s, k);
    var c' := ChildControl(s.ctl, k, t);
    ChildShape(s, k, t);
    HeldChildReplaced(f, s.ctl, c', k);
    hide ItemStarted;
    TasksStay(f, c0, s.ctl, c');
    ChildMoved(s.exec, c0, s.ctl, c', k, left);
  }

  /** Child k started again: one less is left. */
  lemma ChildMoved(exec: string, c0: Control, c: Control, c': Control, k: Key, left: set<Key>)
    requires ChildrenCarried(exec, c0, c.children, left) && k in left && k in c0.children
    requires k in c'.children && c'.children == c.children[k := c'.children[k]]
    requires ChildAgain(exec, c0.children[k], c'.children[k], c0.n)
    ensures ChildrenCarried(exec, c0, c'.children, left - {k})
  {
    forall l | l in c0.children && l in c'.children ensures ChildCarried(exec, c0, c'.children, l, left - {k}) {
      assert l != k ==> ChildCarried(exec, c0, c.children, l, left);
    }
  }

  lemma TasksStay(f: Flow, c0: Control, c: Control, c': Control)
    requires TasksCarried(f, c0, c, {}) && c'.tasks == c.tasks && c'.timers == c.timers
    ensures TasksCarried(f, c0, c', {})
  {
    forall k | k in c.tasks ensures TaskTimed(f, c', k) {
      hide TaskTimed;
      StillTimed(f, c, c', k);
    }
    hide TaskTimed;
    forall k | k in c0.tasks && k in c'.tasks ensures TaskCarried(c0, c', k, {}) {
      assert TaskCarried(c0, c, k, {});
    }
  }

  // ---- Ending ----

  /** A fork whose work all started again is at rest. */
  lemma ForkRests(f: Flow, src: State, s: State)
    requires Forking(f, src.ctl, s.ctl) && TasksCarried(f, src.ctl, s.ctl, {}) && ChildrenCarried(s.exec, src.ctl, s.ctl.children, {})
    requires AwaitsAgain(src.ctl, s.ctl)
    requires Running(s) && Quiet(src) && s.data.buffered == src.data.buffered
    requires DataOk(f, s.data) && StepsOk(f, src) && s.data.steps == src.data.steps
    ensures Resting(f, s)
  {
    hide Held, Numbered, TaskTimed, DataOk, StepsBounded;
    assert forall name :: Buffers(s.data, name) == Buffers(src.data, name);
    hide Buffers;
    assert OwnChildren(s) by {
      forall k | k in s.ctl.children ensures s.ctl.children[k].id.parent == s.exec {
        assert ChildCarried(s.exec, src.ctl, s.ctl.children, k, {});
      }
    }
  }

  /** The edit of a fork keeps its data part in order. */
  lemma EditedOk(f: Flow, d: Data, writes: map<string, Json>, id: string, now: int)
    requires DataOk(f, d) && (|writes| > 0 ==> Declared(f, d, writes))
    ensures var e := Edited(f, d, writes, id, now);
            DataOk(f, e) && e.buffered == d.buffered && e.steps == d.steps
  {
    if |writes| > 0 { TypedWritten(f, d.channels, writes); }
    hide Typed, InBudget, StepsBounded, Written, Declared;
  }

  lemma EditedIs(f: Flow, d: Data, c: Control, writes: map<string, Json>, id: string, now: int)
    ensures |writes| > 0 ==> Edited(f, d, writes, id, now) == NodeData(f, d, c, ChannelsUpdated(id, writes), now)
    ensures |writes| == 0 ==> Edited(f, d, writes, id, now) == d
  {
  }

  lemma EditKeeps(f: Flow, src: State, writes: map<string, Json>, id: string, now: int)
    requires Resting(f, src) && (|writes| > 0 ==> Declared(f, src.data, writes))
    ensures var e := Edited(f, src.data, writes, id, now);
            DataOk(f, e) && e.buffered == src.data.buffered && e.steps == src.data.steps
  {
    EditedOk(f, src.data, writes, id, now);
    hide Held, Numbered, Timed, DataOk, Quiet, StepsOk, Edited;
  }

  lemma ForkEnds(f: Flow, src: State, s: State, writes: map<string, Json>, id: string, now: int)
    requires if s.phase.Live? then
               && Resting(f, s) && s.flow == src.flow && s.input == src.input
               && s.data == Edited(f, src.data, writes, id, now)
               && Forking(f, src.ctl, s.ctl) && TasksCarried(f, src.ctl, s.ctl, {})
               && ChildrenCarried(s.exec, src.ctl, s.ctl.children, {}) && AwaitsAgain(src.ctl, s.ctl)
             else Finished(f, s)
    ensures Boundary(f, s)
    ensures s.phase.Live? ==> ForkOf(f, src, s, writes, id, now)
  {
    hide Resting, Finished, Edited, Forking, TasksCarried, ChildrenCarried, AwaitsAgain;
  }

  lemma RestingQuiet(f: Flow, s: State)
    requires Resting(f, s)
    ensures Quiet(s) && StepsOk(f, s)
  {
  }

  lemma TaskUntouched(f: Flow, c0: Control, c: Control, k: Key, left: set<Key>)
    requires TasksCarried(f, c0, c, left) && k in left && k in c.tasks
    ensures k in c0.tasks && c.tasks[k] == c0.tasks[k]
  {
    assert k in c0.tasks.Keys;
    assert TaskCarried(c0, c, k, left);
  }

  /** Await a of a fork may start again: it waits for a signal the source has not got. */
  lemma AwaitNumbered(f: Flow, src: State, s: State, a: string)
    requires Resting(f, src) && Forking(f, src.ctl, s.ctl) && s.data.buffered == src.data.buffered
    requires a in src.ctl.awaits && a in f.byId && src.ctl.awaits[a].signal == f.byId[a].signal
    ensures Numbered(s.ctl) && !Buffers(s.data, f.byId[a].signal)
  {
    hide Held, Numbered, Timed, DataOk, StepsOk;
    assert Buffers(s.data, f.byId[a].signal) == Buffers(src.data, f.byId[a].signal);
  }

  /** The children a fork copied are all its source's. */
  lemma InheritedKids(src: State, s: State, inherited: set<ChildId>)
    requires OwnChildren(src) && src.exec != s.exec && ChildrenCarried(s.exec, src.ctl, s.ctl.children, src.ctl.children.Keys)
    requires inherited == set k | k in s.ctl.children :: s.ctl.children[k].id
    ensures s.ctl.children.Keys == src.ctl.children.Keys && forall id | id in inherited :: id.parent != s.exec
    ensures forall k | k in s.ctl.children :: s.ctl.children[k].id in inherited && s.ctl.children[k].id.parent != s.exec
  {
    forall k | k in s.ctl.children ensures s.ctl.children[k] == src.ctl.children[k] {
      assert ChildCarried(s.exec, src.ctl, s.ctl.children, k, src.ctl.children.Keys);
    }
  }

  /** s is a fork of src in which tasks and awaits started again, and the children in left have not. */
  ghost predicate Reviving(f: Flow, src: State, s: State, left: set<Key>) {
    && Running(s) && OwnChildren(src) && src.exec != s.exec
    && Forking(f, src.ctl, s.ctl) && TasksCarried(f, src.ctl, s.ctl, {}) && AwaitsAgain(src.ctl, s.ctl)
    && ChildrenCarried(s.exec, src.ctl, s.ctl.children, left)
  }

  lemma ForkingHeld(f: Flow, c0: Control, c: Control)
    requires Forking(f, c0, c)
    ensures Held(f, c)
  {
  }

  lemma ChildRevives(f: SoundFlow, src: State, s: State, k: Key, left: set<Key>)
    requires Reviving(f, src, s, left) && k in left && k in s.ctl.children
    ensures s.ctl.children[k].node in f.byId && f.byId[s.ctl.children[k].node].id == s.ctl.children[k].node
    ensures ChildGuard(s, k, Rebirth(f, s, k))
    ensures var ch := s.ctl.children[k];
            ch.owner == ch.node ==> IsItem(s.ctl, ch.owner, ch.node) && ch.index < |s.ctl.maps[ch.owner].items|
    ensures var c' := ChildControl(s.ctl, k, Rebirth(f, s, k));
            c'.children == s.ctl.children[k := Rebirth(f, s, k)]
            && forall t: State :: Running(t) && t.exec == s.exec && t.ctl == c' ==> Reviving(f, src, t, left - {k})
  {
    assert k in src.ctl.children.Keys;
    ChildRestarts(f, src.ctl, s, k, left);
    ForkingHeld(f, src.ctl, s.ctl);
    OpenChildOf(f, s.ctl, k);
    hide Forking, TasksCarried, AwaitsAgain, ChildrenCarried, ChildControl, ChildGuard, Sound;
  }

  // ---- Continuations and aborted decisions ----

  lemma ContinuedRests(f: Flow, s: State, t: State)
    requires Resting(f, s) && t == s.(book := t.book) && t.book.events > 0
    ensures Boundary(f, t)
  {
    QuietSame(s, t);
    StepsSame(f, s, t);
    hide Held, Timed, Numbered, Quiet, StepsOk, DataOk;
  }

  /** Recording a failure keeps the events folding to the state, and legal exactly when it cancels what it should. */
  lemma FailureRecorded(f: Flow, s0: State, evs: seq<Event>, s: State, ev: Event)
    requires Legal(f, s0, evs) && FoldAll(f, s0, evs) == Some(s) && Running(s) && Shaped(f, s.data)
    requires ev.body.OfLife? && ev.body.life.ExecutionFailed? && ev.body.life.reason == ReasonDecisionTooLarge
    requires ev.index == ExpectedIndex(s, ev.body)
    ensures Apply(f, s, ev).Some? && FoldAll(f, s0, evs + [ev]) == Apply(f, s, ev)
    ensures Finished(f, Apply(f, s, ev).value) && Apply(f, s, ev).value.exec == s.exec
    ensures Legal(f, s0, evs + [ev]) <==> ev.body.life.cancel == Cancellable(s)
  {
    hide NodeGuard, GraphGuard, WaitGuard, Boundary, EnterGuard, FlowOutput, LedTo, Free, Cancellable, DeadEnd, ExpressionFails;
    assert (evs + [ev])[..|evs|] == evs;
  }

  /** The decision that creates an execution is aborted, and is a fork of a live source with children to cancel. */
  predicate AbortsFork(s: State, first: Option<LifeEvent>) {
    && !Exists(s) && first.Some? && first.value.Forked? && !Terminal(first.value.state.phase)
    && exists k | k in first.value.state.ctl.children :: !first.value.state.ctl.children[k].abandon
  }

  /** The children in flight when a decision is aborted: of a fork those of its source. */
  function InFlight(s: State, first: Option<LifeEvent>): set<ChildId> {
    if !Exists(s) && first.Some? && first.value.Forked? then Unclaimed(first.value.state.ctl, {}) else Unclaimed(s.ctl, {})
  }

  /** What an aborted decision leaves: the first event of an execution that did not exist, and unless that is finished the
      failure, naming all children in flight. */
  predicate Aborted(s: State, first: Option<LifeEvent>, evs: seq<Event>) {
    var failure := OfLife(ExecutionFailed(ReasonDecisionTooLarge, "", InFlight(s, first)));
    if Exists(s) then |evs| == 1 && evs[0].body == failure
    else
      && first.Some? && 1 <= |evs| <= 2 && evs[0].body == OfLife(first.value)
      && (|evs| == 1 <==> first.value.Forked? && Terminal(first.value.state.phase)) && evs[0].index == 1
      && (|evs| == 2 ==> evs[1].body == failure && evs[1].index == 2)
  }

  lemma NoneAborted(s: State, first: Option<LifeEvent>)
    requires Exists(s)
    ensures !AbortsFork(s, first) && InFlight(s, first) == Unclaimed(s.ctl, {})
  {
  }

  lemma TerminalFinished(f: Flow, s: State)
    requires Boundary(f, s)
    ensures Terminal(s.phase) ==> Finished(f, s)
    ensures !Terminal(s.phase) ==> Running(s) && Unclaimed(s.ctl, {}) == Cancellable(s)
  {
    hide Held, Timed, Numbered, Quiet, StepsOk, DataOk;
  }

  /** What recording only the first event of an aborted decision leaves, and which children its failure would cancel. */
  lemma FirstLeaves(f: Flow, s: State, first: LifeEvent, now: int)
    requires s == New(s.exec) && (first.Started? || first.Forked?) && LifeGuard(f, s, first)
    ensures var t := After(f, s, OfLife(first), now);
            && (Terminal(t.phase) ==> Finished(f, t) && !AbortsFork(s, Some(first)))
            && (!Terminal(t.phase) ==>
                  Running(t) && (Unclaimed(t.ctl, {}) == Cancellable(t) <==> !AbortsFork(s, Some(first))))
            && t.exec == s.exec && t.book.events == 1 && ExpectedIndex(s, OfLife(first)) == 1 && Unclaimed(t.ctl, {}) == InFlight(s, Some(first))
            && (Terminal(t.phase) <==> first.Forked? && Terminal(first.state.phase))
  {
    hide Held, Timed, Numbered, Quiet, StepsOk, DataOk;
    var t := After(f, s, OfLife(first), now);
    if AbortsFork(s, Some(first)) {
      var k :| k in first.state.ctl.children && !first.state.ctl.children[k].abandon;
      assert t.ctl.children[k].id in Unclaimed(t.ctl, {});
      assert t.ctl.children[k].id !in Cancellable(t);
    }
  }

  /** What the first event of an aborted decision leaves is in order. */
  lemma FirstShaped(f: SoundFlow, s: State, first: LifeEvent, now: int)
    requires s == New(s.exec) && (first.Started? || first.Forked?) && LifeGuard(f, s, first)
    ensures Shaped(f, After(f, s, OfLife(first), now).data)
  {
    if first.Started? {
      StartReady(f, s, first.input, now);
    } else {
      hide Held, Timed, Numbered, Quiet, StepsOk;
    }
  }

  /** A flow of one subflow node, and an execution of it whose child is running. */
  const ONE_CHILD := Node("s", SubflowNode, "", "", 0, None, _ => true, [], [], false, [], [], JoinAll, "", "", _ => None, 0,
                          "g", None, false)

  const ONE_CHILD_FLOW := Flow("f", "", [ONE_CHILD], map[], map[], 0, None, map["s" := ONE_CHILD], "s", map[], map[])

  const ONE_CHILD_OPEN := State(
    "a", "f", Phase.Live, Obj(map[]), EMPTY_DATA.(visits := map["s" := 1], steps := 1),
    EMPTY_CONTROL.(children := map[Plain("s") := Child(ChildId("a", 1), false, "s", "", 0)], n := 1),
    Book(3, 0, [], "", 0), Null, None)

  lemma OneChildRests()
    ensures Boundary(ONE_CHILD_FLOW, ONE_CHILD_OPEN)
  {
    var s := ONE_CHILD_OPEN;
    assert OnChild(ONE_CHILD_FLOW, s.ctl, "s");
    assert StepsBounded(ONE_CHILD_FLOW, 1) by { assert 1 <= MaxSteps(ONE_CHILD_FLOW) + |ONE_CHILD_FLOW.byId["s"].branches| + 1; }
    hide StepsBounded, OnChild, OnTask, OnAwait, OnFan, OnMap;
    assert Held(ONE_CHILD_FLOW, s.ctl);
    hide Held;
  }

  /** The failure of an aborted fork may name children of its source: forking an execution whose child is running as "b",
      and aborting, asks to cancel the child of "a". */
  lemma AbortNamesSource()
    ensures var first := Forked("b", "a", 1, ONE_CHILD_OPEN);
            && LifeGuard(ONE_CHILD_FLOW, New("b"), first) && AbortsFork(New("b"), Some(first))
            && ChildId("a", 1) in Unclaimed(After(ONE_CHILD_FLOW, New("b"), OfLife(first), 0).ctl, {})
  {
    hide Boundary;
    OneChildRests();
    assert Plain("s") in ONE_CHILD_OPEN.ctl.children && !ONE_CHILD_OPEN.ctl.children[Plain("s")].abandon;
  }
}
