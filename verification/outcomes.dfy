/** What is left when a task instance or a child settles, or a task changes status. */
module Outcomes {
  import opened Values
  import opened Flows
  import opened Fold
  import opened Invariants
  import opened Guards
  import opened ControlSteps

  /** At rest, except that the timer of instance k may have fired. */
  ghost predicate RestingBut(f: Flow, s: State, k: Key) {
    && s.phase.Live? && Exists(s) && Held(f, s.ctl) && Numbered(s.ctl) && OwnChildren(s) && Quiet(s)
    && DataOk(f, s.data) && StepsOk(f, s) && TimedBut(f, s.ctl, k)
  }

  predicate TimedBut(f: Flow, c: Control, k: Key) {
    && (forall l | l in c.tasks && l != k :: TaskTimed(f, c, l))
    && (forall a | a in c.awaits :: AwaitTimed(c, a))
  }

  lemma RestingIsRestingBut(f: Flow, s: State, k: Key)
    requires Resting(f, s)
    ensures RestingBut(f, s, k)
  {
    hide Held, Numbered, TaskTimed;
  }

  /** Removing an instance leaves the others armed. */
  lemma TimedWithout(f: Flow, c: Control, c': Control, k: Key)
    requires TimedBut(f, c, k) && c'.tasks == c.tasks - {k} && c'.timers == c.timers && c'.awaits == c.awaits
    ensures Timed(f, c')
  {
    hide TaskTimed;
    forall l | l in c'.tasks ensures TaskTimed(f, c', l) { StillTimed(f, c, c', l); }
  }

  // ---- The control part once instance k of a task is removed ----

  predicate Ends(e: NodeEvent, k: Key) {
    (e.NodeDone? && e.key == k) || (e.NodeFail? && e.key == k && !e.willRetry)
  }

  lemma RemovedShape(c: Control, e: NodeEvent, k: Key)
    requires k in c.tasks && Ends(e, k)
    ensures var c' := NodeControl(c, e);
            && c'.tasks == c.tasks - {k} && c'.children == c.children && c'.timers == c.timers && c'.awaits == c.awaits
            && c'.n == c.n
            && c'.fans == Marked(c, c.tasks[k].owner, c.tasks[k].node, if e.NodeDone? then Succeeded else Failed)
            && c'.maps == (if e.NodeDone? && IsItem(c, c.tasks[k].owner, c.tasks[k].node)
                           then ItemDone(c, c.tasks[k].owner, c.tasks[k].index, e.output) else c.maps)
  {
  }

  lemma NumberedWithout(c: Control, e: NodeEvent, k: Key)
    requires k in c.tasks && Ends(e, k) && Numbered(c)
    ensures Numbered(NodeControl(c, e))
  {
    RemovedShape(c, e, k);
    hide NodeControl;
  }

  lemma TaskLeft(f: Flow, c: Control, e: NodeEvent, node: string)
    requires OnTask(f, c, node) && Ends(e, Plain(node))
    ensures Free(NodeControl(c, e))
  {
    RemovedShape(c, e, Plain(node));
    hide NodeControl;
    assert NodeControl(c, e).tasks.Keys == {};
  }

  lemma BranchLeft(f: Flow, c: Control, e: NodeEvent, k: Key, fan: string)
    requires FanOpen(f, c, fan) && k in c.tasks && Ends(e, k)
    ensures FanOpen(f, NodeControl(c, e), fan)
  {
    RemovedShape(c, e, k);
    hide NodeControl, TaskOk, ChildOk;
    var c' := NodeControl(c, e);
    assert k == Plain(k.node) && c.tasks[k].owner == fan && c.tasks[k].node == k.node by { TaskOwner(f, k, c.tasks[k], fan); }
    forall b | b in c'.fans[fan].branches ensures c'.fans[fan].branches[b].Pending? <==> BranchOpen(c', b) {
      if b == k.node {
        assert Plain(b) !in c.children;
      } else {
        assert c.fans[fan].branches[b].Pending? <==> BranchOpen(c, b);
      }
    }
  }

  lemma TaskOwner(f: Flow, k: Key, t: Task, owner: string)
    requires TaskOk(f, k, t, owner)
    ensures t.owner == owner && t.node == k.node && t.index == (if k.Item? then k.index else 0)
  {
  }

  lemma CountedOneLess(c: Control, c': Control, m: string, index: nat, output: Json)
    requires m in c.maps && MapCounted(c, m) && index < |c.maps[m].outputs|
    requires c'.maps == ItemDone(c, m, index, output) && |c'.tasks| + |c'.children| == |c.tasks| + |c.children| - 1
    ensures c'.maps.Keys == c.maps.Keys && MapCounted(c', m)
    ensures c'.maps[m] == c.maps[m].(outputs := c.maps[m].outputs[index := output], done := c.maps[m].done + 1)
  {
  }

  /** A done item is one open instance less, and its output stands at its index. */
  lemma ItemLeft(f: Flow, c: Control, e: NodeEvent, k: Key, m: string)
    requires MapOpen(f, c, m) && k in c.tasks && e.NodeDone? && e.key == k
    ensures MapOpen(f, NodeControl(c, e), m)
    ensures NodeControl(c, e).maps[m].outputs == c.maps[m].outputs[k.index := e.output]
  {
    hide NodeControl, TaskOk, ChildOk, ItemDone;
    RemovedShape(c, e, k);
    var c' := NodeControl(c, e);
    assert k.index < |c.maps[m].outputs|;
    hide MapCounted;
    TaskOwner(f, k, c.tasks[k], m);
    assert c'.tasks.Keys == c.tasks.Keys - {k};
    assert |c'.tasks| == |c.tasks| - 1;
    CountedOneLess(c, c', m, k.index, e.output);
  }

  lemma ItemFailed(f: Flow, c: Control, e: NodeEvent, k: Key, m: string)
    requires MapOpen(f, c, m) && k in c.tasks && e.NodeFail? && e.key == k && !e.willRetry
    ensures MapClosing(NodeControl(c, e), m)
  {
    RemovedShape(c, e, k);
    hide NodeControl;
  }

  // ---- After a task completed ----

  /** What remains to do is up to the owner of the settled instance: its join, its map, or the node's successor. */
  ghost predicate Stepped(f: Flow, s: State, owner: string, node: string) {
    if owner in s.ctl.fans then
      && Settling(f, s) && FanOpen(f, s.ctl, owner) && owner in f.byId
      && s.data.steps <= MaxSteps(f) + |f.byId[owner].branches|
    else if IsItem(s.ctl, owner, node) then Settling(f, s) && MapOpen(f, s.ctl, owner)
    else Ready(f, s)
  }

  /** What remains to do after a permanent failure. */
  ghost predicate FailStepped(f: Flow, s: State, owner: string, node: string) {
    if owner in s.ctl.fans then Stepped(f, s, owner, node)
    else if IsItem(s.ctl, owner, node) then
      && MapClosing(s.ctl, owner) && s.phase.Live? && Exists(s) && Numbered(s.ctl) && OwnChildren(s) && DataOk(f, s.data)
    else Ready(f, s)
  }

  /** An execution whose instance of a node failed, and which has no fan-out to wait for, may fail. */
  lemma FailRuns(f: Flow, s: State, owner: string, node: string)
    requires FailStepped(f, s, owner, node) && owner !in s.ctl.fans
    ensures Running(s) && OwnChildren(s) && Shaped(f, s.data)
  {
    hide Stepped, MapClosing, Numbered;
  }

  /** t is s after event e of instance k, which removed it: the rest is armed and numbered, the data part in order. */
  ghost predicate Took(f: Flow, s: State, t: State, e: NodeEvent, k: Key) {
    && k in s.ctl.tasks && Ends(e, k)
    && t.phase.Live? && Exists(t) && t.exec == s.exec && t.ctl == NodeControl(s.ctl, e)
    && DataOk(f, t.data) && t.data.steps == s.data.steps
  }

  lemma TookSettles(f: Flow, s: State, t: State, e: NodeEvent, k: Key)
    requires Took(f, s, t, e, k) && Numbered(s.ctl) && TimedBut(f, s.ctl, k) && OwnChildren(s)
    ensures Settling(f, t)
  {
    RemovedShape(s.ctl, e, k);
    NumberedWithout(s.ctl, e, k);
    TimedWithout(f, s.ctl, t.ctl, k);
    hide NodeControl, Numbered, Timed, TimedBut, DataOk;
  }

  lemma StepOnTask(f: Flow, s: State, t: State, e: NodeEvent, k: Key, node: string)
    requires Took(f, s, t, e, k) && Settling(f, t) && OnTask(f, s.ctl, node)
    ensures Stepped(f, t, s.ctl.tasks[k].owner, s.ctl.tasks[k].node)
    ensures FailStepped(f, t, s.ctl.tasks[k].owner, s.ctl.tasks[k].node)
  {
    TaskLeft(f, s.ctl, e, node);
    hide NodeControl, Numbered, Timed, DataOk, FanOpen, MapOpen, MapClosing, TaskOk;
    FreeParts(t.ctl);
  }

  lemma StepOnFan(f: Flow, s: State, t: State, e: NodeEvent, k: Key, fan: string)
    requires Took(f, s, t, e, k) && Settling(f, t) && FanOpen(f, s.ctl, fan) && StepsOk(f, s)
    ensures Stepped(f, t, s.ctl.tasks[k].owner, s.ctl.tasks[k].node)
    ensures FailStepped(f, t, s.ctl.tasks[k].owner, s.ctl.tasks[k].node)
  {
    assert TaskOk(f, k, s.ctl.tasks[k], fan);
    TaskOwner(f, k, s.ctl.tasks[k], fan);
    BranchLeft(f, s.ctl, e, k, fan);
    FanOpenCloses(f, t.ctl, fan);
    hide NodeControl, Numbered, Timed, DataOk, MapOpen, MapClosing, TaskOk, ChildOk, StepsBounded;
  }

  lemma StepOnMap(f: Flow, s: State, t: State, e: NodeEvent, k: Key, m: string)
    requires Took(f, s, t, e, k) && Settling(f, t) && MapOpen(f, s.ctl, m)
    ensures e.NodeDone? ==> Stepped(f, t, s.ctl.tasks[k].owner, s.ctl.tasks[k].node)
    ensures e.NodeFail? ==> FailStepped(f, t, s.ctl.tasks[k].owner, s.ctl.tasks[k].node)
  {
    assert TaskOk(f, k, s.ctl.tasks[k], m);
    TaskOwner(f, k, s.ctl.tasks[k], m);
    assert s.ctl.fans == map[] && k.node == m;
    RemovedShape(s.ctl, e, k);
    if e.NodeDone? { ItemLeft(f, s.ctl, e, k, m); } else { ItemFailed(f, s.ctl, e, k, m); }
    hide NodeControl, Numbered, Timed, DataOk, FanOpen, TaskOk, ChildOk, MapCounted, ItemDone;
  }

  /** After a completion or a permanent failure, one of the three owners continues. */
  lemma SettleSteps(f: Flow, s: State, t: State, e: NodeEvent, k: Key)
    requires RestingBut(f, s, k) && Took(f, s, t, e, k)
    ensures e.NodeDone? ==> Stepped(f, t, s.ctl.tasks[k].owner, s.ctl.tasks[k].node)
    ensures e.NodeFail? ==> FailStepped(f, t, s.ctl.tasks[k].owner, s.ctl.tasks[k].node)
  {
    hide Numbered, TimedBut, DataOk, OwnChildren, Quiet, Stepped, FailStepped, StepsOk, FanOpen, MapOpen, OnTask,
         Undecided, MapBusy, OnChild, OnAwait;
    TookSettles(f, s, t, e, k);
    HeldTask(f, s.ctl, k);
    if node :| OnTask(f, s.ctl, node) {
      StepOnTask(f, s, t, e, k, node);
    } else if fan :| FanOpen(f, s.ctl, fan) {
      StepOnFan(f, s, t, e, k, fan);
    } else {
      var m :| MapOpen(f, s.ctl, m);
      StepOnMap(f, s, t, e, k, m);
    }
  }

  /** An open task is plain, a branch or an item. */
  lemma HeldTask(f: Flow, c: Control, k: Key)
    requires Held(f, c) && k in c.tasks
    ensures (exists node :: OnTask(f, c, node)) || (exists fan :: FanOpen(f, c, fan)) || (exists m :: MapOpen(f, c, m))
  {
    hide OnTask, FanOpen, MapOpen, Undecided, MapBusy;
  }

  // ---- After a child reported ----

  /** t is s once the child of instance k reported. */
  ghost predicate Reported(f: Flow, s: State, t: State, k: Key, ok: bool, output: Json) {
    && k in s.ctl.children
    && t.phase.Live? && Exists(t) && t.exec == s.exec
    && t.ctl == ChildSettled(s.ctl, k, s.ctl.children[k].node, ok, output)
    && DataOk(f, t.data) && t.data.steps == s.data.steps
  }

  lemma ReportedShape(c: Control, k: Key, ok: bool, output: Json)
    requires k in c.children
    ensures var ch := c.children[k];
            var c' := ChildSettled(c, k, ch.node, ok, output);
            && c'.children == c.children - {k} && c'.tasks == c.tasks && c'.timers == c.timers && c'.awaits == c.awaits
            && c'.n == c.n
            && (IsItem(c, ch.owner, ch.node) ==>
                  c'.fans == c.fans && c'.maps == if ok then ItemDone(c, ch.owner, ch.index, output) else c.maps)
            && (!IsItem(c, ch.owner, ch.node) ==>
                  c'.maps == c.maps && c'.fans == Marked(c, ch.owner, ch.node, if ok then Succeeded else Failed))
  {
  }

  lemma ReportedSettles(f: Flow, s: State, t: State, k: Key, ok: bool, output: Json)
    requires Reported(f, s, t, k, ok, output) && Numbered(s.ctl) && Timed(f, s.ctl) && OwnChildren(s)
    ensures Settling(f, t)
  {
    ReportedShape(s.ctl, k, ok, output);
    hide ChildSettled;
    assert Numbered(t.ctl);
    hide Numbered, DataOk;
    StillAllTimed(f, s.ctl, t.ctl);
  }

  lemma ChildOwner(f: Flow, k: Key, ch: Child, owner: string)
    requires ChildOk(f, k, ch, owner)
    ensures ch.owner == owner && ch.node == k.node && ch.index == (if k.Item? then k.index else 0)
  {
  }

  lemma ReportOnChild(f: Flow, s: State, t: State, k: Key, ok: bool, output: Json, node: string)
    requires Reported(f, s, t, k, ok, output) && Settling(f, t) && OnChild(f, s.ctl, node)
    ensures Stepped(f, t, s.ctl.children[k].owner, s.ctl.children[k].node)
    ensures FailStepped(f, t, s.ctl.children[k].owner, s.ctl.children[k].node)
  {
    ReportedShape(s.ctl, k, ok, output);
    hide ChildSettled, Numbered, Timed, DataOk, FanOpen, MapOpen, MapClosing, ChildOk;
    assert t.ctl.children.Keys == {};
  }

  lemma ReportOnFan(f: Flow, s: State, t: State, k: Key, ok: bool, output: Json, fan: string)
    requires Reported(f, s, t, k, ok, output) && Settling(f, t) && FanOpen(f, s.ctl, fan) && StepsOk(f, s)
    ensures Stepped(f, t, s.ctl.children[k].owner, s.ctl.children[k].node)
    ensures FailStepped(f, t, s.ctl.children[k].owner, s.ctl.children[k].node)
  {
    assert ChildOk(f, k, s.ctl.children[k], fan);
    ChildOwner(f, k, s.ctl.children[k], fan);
    BranchReported(f, s.ctl, k, ok, output, fan);
    FanOpenCloses(f, t.ctl, fan);
    hide ChildSettled, Numbered, Timed, DataOk, MapOpen, MapClosing, TaskOk, ChildOk, StepsBounded;
  }

  lemma BranchReported(f: Flow, c: Control, k: Key, ok: bool, output: Json, fan: string)
    requires FanOpen(f, c, fan) && k in c.children
    ensures FanOpen(f, ChildSettled(c, k, c.children[k].node, ok, output), fan)
  {
    assert ChildOk(f, k, c.children[k], fan);
    ChildOwner(f, k, c.children[k], fan);
    ReportedShape(c, k, ok, output);
    hide ChildSettled, TaskOk, ChildOk;
    var c' := ChildSettled(c, k, c.children[k].node, ok, output);
    forall b | b in c'.fans[fan].branches ensures c'.fans[fan].branches[b].Pending? <==> BranchOpen(c', b) {
      if b == k.node {
        assert Plain(b) !in c.tasks;
      } else {
        assert c.fans[fan].branches[b].Pending? <==> BranchOpen(c, b);
      }
    }
  }

  lemma ReportOnMap(f: Flow, s: State, t: State, k: Key, ok: bool, output: Json, m: string)
    requires Reported(f, s, t, k, ok, output) && Settling(f, t) && MapOpen(f, s.ctl, m)
    ensures ok ==> Stepped(f, t, s.ctl.children[k].owner, s.ctl.children[k].node)
    ensures !ok ==> FailStepped(f, t, s.ctl.children[k].owner, s.ctl.children[k].node)
  {
    assert ChildOk(f, k, s.ctl.children[k], m);
    ChildOwner(f, k, s.ctl.children[k], m);
    assert s.ctl.fans == map[] && k.node == m;
    ReportedShape(s.ctl, k, ok, output);
    if ok { ItemReported(f, s.ctl, k, output, m); } else { ItemReportedFailed(f, s.ctl, k, output, m); }
    hide ChildSettled, Numbered, Timed, DataOk, FanOpen, TaskOk, ChildOk, MapCounted, ItemDone;
  }

  lemma ItemReported(f: Flow, c: Control, k: Key, output: Json, m: string)
    requires MapOpen(f, c, m) && k in c.children
    ensures MapOpen(f, ChildSettled(c, k, c.children[k].node, true, output), m)
  {
    assert ChildOk(f, k, c.children[k], m);
    ChildOwner(f, k, c.children[k], m);
    ReportedShape(c, k, true, output);
    var c' := ChildSettled(c, k, c.children[k].node, true, output);
    assert k.index < |c.maps[m].outputs|;
    hide ChildSettled, TaskOk, ChildOk, MapCounted, ItemDone;
    assert c'.children.Keys == c.children.Keys - {k};
    assert |c'.children| == |c.children| - 1;
    CountedOneLess(c, c', m, k.index, output);
  }

  lemma ItemReportedFailed(f: Flow, c: Control, k: Key, output: Json, m: string)
    requires MapOpen(f, c, m) && k in c.children
    ensures MapClosing(ChildSettled(c, k, c.children[k].node, false, output), m)
  {
    ReportedShape(c, k, false, output);
    hide ChildSettled;
  }

  lemma ReportSteps(f: Flow, s: State, t: State, k: Key, ok: bool, output: Json)
    requires Resting(f, s) && Reported(f, s, t, k, ok, output)
    ensures ok ==> Stepped(f, t, s.ctl.children[k].owner, s.ctl.children[k].node)
    ensures !ok ==> FailStepped(f, t, s.ctl.children[k].owner, s.ctl.children[k].node)
  {
    hide Numbered, Timed, DataOk, OwnChildren, Quiet, Stepped, FailStepped, StepsOk, FanOpen, MapOpen, OnTask, ChildSettled,
         Undecided, MapBusy, OnChild, OnAwait;
    ReportedSettles(f, s, t, k, ok, output);
    HeldChild(f, s.ctl, k);
    if node :| OnChild(f, s.ctl, node) {
      ReportOnChild(f, s, t, k, ok, output, node);
    } else if fan :| FanOpen(f, s.ctl, fan) {
      ReportOnFan(f, s, t, k, ok, output, fan);
    } else {
      var m :| MapOpen(f, s.ctl, m);
      ReportOnMap(f, s, t, k, ok, output, m);
    }
  }

  lemma HeldChild(f: Flow, c: Control, k: Key)
    requires Held(f, c) && k in c.children
    ensures (exists node :: OnChild(f, c, node)) || (exists fan :: FanOpen(f, c, fan)) || (exists m :: MapOpen(f, c, m))
  {
    hide OnChild, FanOpen, MapOpen, Undecided, MapBusy;
  }

  // ---- A task that changes status, or starts again, keeps its place ----

  /** c' is c with another task in the place of instance k. */
  ghost predicate Replaced(f: Flow, c: Control, c': Control, k: Key) {
    && k in c.tasks && k in c'.tasks && c'.tasks == c.tasks[k := c'.tasks[k]]
    && c'.tasks[k].node == c.tasks[k].node && c'.tasks[k].owner == c.tasks[k].owner
    && c'.tasks[k].index == c.tasks[k].index && c'.tasks[k].item == c.tasks[k].item
    && c'.tasks[k].node in f.byId && 1 <= c'.tasks[k].attempt <= MaxAttempts(f.byId[c'.tasks[k].node])
    && c'.fans == c.fans && c'.maps == c.maps && c'.awaits == c.awaits && c'.children == c.children
  }

  lemma HeldReplaced(f: Flow, c: Control, c': Control, k: Key)
    requires Held(f, c) && Replaced(f, c, c', k)
    ensures Held(f, c')
  {
    hide OnTask, OnChild, OnAwait, OnFan, OnMap, Replaced;
    if node :| OnTask(f, c, node) {
      TaskReplaced(f, c, c', k, node);
    } else if fan :| OnFan(f, c, fan) {
      FanReplaced(f, c, c', k, fan);
    } else if m :| OnMap(f, c, m) {
      MapReplaced(f, c, c', k, m);
    } else {
      NoTaskElse(f, c, c', k);
    }
  }

  lemma NoTaskElse(f: Flow, c: Control, c': Control, k: Key)
    requires Replaced(f, c, c', k)
    ensures forall node :: !OnChild(f, c, node) && !OnAwait(f, c, node)
  {
  }

  lemma TaskReplaced(f: Flow, c: Control, c': Control, k: Key, node: string)
    requires OnTask(f, c, node) && Replaced(f, c, c', k)
    ensures OnTask(f, c', node)
  {
  }

  lemma FanReplaced(f: Flow, c: Control, c': Control, k: Key, fan: string)
    requires OnFan(f, c, fan) && Replaced(f, c, c', k)
    ensures OnFan(f, c', fan)
  {
    hide Verdict, ChildOk, WaitFor;
    assert TaskOk(f, k, c.tasks[k], fan);
    forall b | b in c'.fans[fan].branches ensures c'.fans[fan].branches[b].Pending? <==> BranchOpen(c', b) {
      assert c.fans[fan].branches[b].Pending? <==> BranchOpen(c, b);
    }
  }

  lemma MapReplaced(f: Flow, c: Control, c': Control, k: Key, m: string)
    requires OnMap(f, c, m) && Replaced(f, c, c', k)
    ensures OnMap(f, c', m)
  {
    hide ChildOk, ParallelLimit, MaxAttempts, MapBusy, MapCounted;
    SameCounts(c, c', m);
    assert TaskOk(f, k, c.tasks[k], m) && TaskOk(f, k, c'.tasks[k], m);
    hide TaskOk;
  }

  lemma SameCounts(c: Control, c': Control, m: string)
    requires m in c.maps && c'.maps == c.maps && c'.children == c.children && c'.tasks.Keys == c.tasks.Keys
    ensures m in c'.maps && MapCounted(c', m) == MapCounted(c, m) && MapBusy(c', m) == MapBusy(c, m)
  {
    assert |c'.tasks| == |c'.tasks.Keys| && |c.tasks| == |c.tasks.Keys|;
  }

  /** An instance that got its timer again puts the execution to rest. */
  lemma RestReplaced(f: Flow, s: State, t: State, k: Key)
    requires RestingBut(f, s, k) && Replaced(f, s.ctl, t.ctl, k)
    requires TaskTimed(f, t.ctl, k) && TimersKept(s.ctl, t.ctl) && Numbered(t.ctl)
    requires t.phase.Live? && Exists(t) && t.exec == s.exec && DataOk(f, t.data)
    requires t.data.steps == s.data.steps && t.data.buffered == s.data.buffered
    ensures Resting(f, t)
  {
    HeldReplaced(f, s.ctl, t.ctl, k);
    TimedReplaced(f, s.ctl, t.ctl, k);
    QuietSame(s, t);
    StepsSame(f, s, t);
    hide Held, Numbered, Timed, TimedBut, TaskTimed, DataOk, TimersKept, Quiet, StepsOk;
  }

  lemma TimedReplaced(f: Flow, c: Control, c': Control, k: Key)
    requires TimedBut(f, c, k) && Replaced(f, c, c', k) && TaskTimed(f, c', k) && TimersKept(c, c')
    ensures Timed(f, c')
  {
    hide TaskTimed;
    forall l | l in c'.tasks ensures TaskTimed(f, c', l) {
      if l != k { StillTimed(f, c, c', l); }
    }
  }

  lemma QuietSame(s: State, t: State)
    requires Quiet(s) && t.ctl.awaits == s.ctl.awaits && t.data.buffered == s.data.buffered
    ensures Quiet(t)
  {
    assert forall name :: Buffers(t.data, name) == Buffers(s.data, name);
  }

  lemma StepsSame(f: Flow, s: State, t: State)
    requires StepsOk(f, s) && t.ctl.fans == s.ctl.fans && t.data.steps == s.data.steps
    ensures StepsOk(f, t)
  {
  }

  // ---- What an open task is ----

  /** What a sound flow says of the node of an open task. */
  ghost predicate NodeKnown(f: Flow, node: string) {
    && node in f.byId && f.byId[node].id == node
    && RouteOk(f, f.byId[node].next) && RouteOk(f, f.byId[node].onFailure)
    && (forall i :: 0 <= i < |f.byId[node].dynamic| ==> Enterable(f, f.byId[node].dynamic[i]))
  }

  lemma NodeIsKnown(f: SoundFlow, node: string)
    requires node in f.byId && !f.byId[node].typ.FanoutNode?
    ensures NodeKnown(f, node)
  {
    hide FanoutOk, RuleOk, RouteOk, Enterable;
    assert Known(f, node);
  }

  lemma OpenTask(f: SoundFlow, c: Control, k: Key)
    requires Held(f, c) && k in c.tasks
    ensures TaskOk(f, k, c.tasks[k], c.tasks[k].owner) && NodeKnown(f, c.tasks[k].node)
    ensures ItemInRange(c, c.tasks[k].owner, c.tasks[k].node, c.tasks[k].index)
    ensures !IsItem(c, c.tasks[k].owner, c.tasks[k].node) ==> k.Plain?
    ensures IsItem(c, c.tasks[k].owner, c.tasks[k].node) ==>
              k == Item(c.tasks[k].node, c.tasks[k].index) && c.tasks[k].index < c.maps[c.tasks[k].owner].next
              && c.maps[c.tasks[k].owner].next <= |c.maps[c.tasks[k].owner].items|
  {
    hide NodeKnown, Sound, Undecided, MapBusy, ChildOk;
    HeldTask(f, c, k);
    NodeIsKnown(f, c.tasks[k].node);
  }

  lemma OpenChild(f: SoundFlow, c: Control, k: Key)
    requires Held(f, c) && k in c.children
    ensures NodeKnown(f, c.children[k].node) && c.children[k].node == k.node
    ensures ItemInRange(c, c.children[k].owner, c.children[k].node, c.children[k].index)
  {
    hide NodeKnown, Sound, Undecided, MapBusy, TaskOk;
    HeldChild(f, c, k);
    NodeIsKnown(f, c.children[k].node);
  }

  lemma HeldAwait(f: Flow, c: Control, node: string)
    requires Held(f, c) && node in c.awaits
    ensures OnAwait(f, c, node)
  {
    hide Undecided, MapBusy, TaskOk, ChildOk;
  }

  // ---- Scheduling an open instance again ----

  /** e schedules open instance k again: a new generation, or the next attempt of a retrying task. */
  ghost predicate Again(f: Flow, c: Control, k: Key, e: NodeEvent) {
    && k in c.tasks && e.Scheduled? && e.key == k && e.node == c.tasks[k].node && e.owner == c.tasks[k].owner
    && e.index == c.tasks[k].index && e.item == c.tasks[k].item && e.node in f.byId
    && (|| (e.generation == c.n + 1 && e.attempt == 1)
        || (&& e.generation == c.tasks[k].generation && c.tasks[k].status.TaskRetrying?
            && e.attempt == c.tasks[k].attempt + 1 && e.attempt <= MaxAttempts(f.byId[e.node])))
  }

  lemma AgainGuarded(f: SoundFlow, c: Control, k: Key, e: NodeEvent)
    requires Held(f, c) && Again(f, c, k, e)
    ensures ScheduleGuard(f, c, e)
    ensures ItemStarted(c, e.owner, e.node, e.index) == c.maps
  {
    OpenTask(f, c, k);
    hide Held, NodeKnown;
  }

  lemma AgainReplaces(f: SoundFlow, c: Control, k: Key, n: Node, e: NodeEvent, now: int)
    requires Held(f, c) && Numbered(c) && Again(f, c, k, e) && n == f.byId[e.node]
    ensures var c' := ScheduleControl(c, n, e, now);
            && ScheduleGuard(f, c, e) && Numbered(c') && Replaced(f, c, c', k) && TaskTimed(f, c', k) && TimersKept(c, c')
  {
    AgainGuarded(f, c, k, e);
    ScheduleShape(f, c, n, e, now);
    hide Held, ScheduleControl, Numbered, ScheduleGuard;
  }

  // ---- Timers ----

  /** Timer id is the one task k waits for. */
  predicate Serves(c: Control, id: nat, k: Key) {
    && id in c.timers && k in c.tasks && !c.timers[id].AwaitTimer? && c.timers[id].key == k
    && c.timers[id].generation == c.tasks[k].generation
    && (if c.timers[id].RetryTimer? then c.tasks[k].status.TaskRetrying? && c.timers[id].attempt == c.tasks[k].attempt + 1
        else c.tasks[k].status.TaskScheduled? && c.timers[id].attempt == c.tasks[k].attempt)
  }

  lemma FiredTask(f: Flow, c: Control, c': Control, id: nat, k: Key)
    requires k in c.tasks && TaskTimed(f, c, k) && !Serves(c, id, k)
    requires c' == c.(timers := c.timers - {id})
    ensures TaskTimed(f, c', k)
  {
    var t := c.tasks[k];
    if t.status.TaskRetrying? {
      var i :| i in c.timers && c.timers[i].RetryTimer? && c.timers[i].key == k
               && c.timers[i].generation == t.generation && c.timers[i].attempt == t.attempt + 1;
      assert c'.timers[i] == c.timers[i];
    } else if t.status.TaskScheduled? && f.byId[t.node].timeout > 0 {
      var i :| i in c.timers && c.timers[i].TimeoutTimer? && c.timers[i].key == k
               && c.timers[i].generation == t.generation && c.timers[i].attempt == t.attempt;
      assert c'.timers[i] == c.timers[i];
    }
  }

  lemma HeldSame(f: Flow, c: Control, c': Control)
    requires Held(f, c) && SameOpen(c, c')
    ensures Held(f, c')
  {
    hide OnFan, OnMap, OnTask, OnChild, OnAwait, SameOpen;
    if node :| OnTask(f, c, node) { OneSame(f, c, c', node); }
    else if node :| OnChild(f, c, node) { OneSame(f, c, c', node); }
    else if node :| OnAwait(f, c, node) { OneSame(f, c, c', node); }
    else if fan :| OnFan(f, c, fan) { FanSame(f, c, c', fan); }
    else { var m :| OnMap(f, c, m); MapSame(f, c, c', m); }
  }

  /** The same is open in c and c'; timers may differ. */
  predicate SameOpen(c: Control, c': Control) {
    && c'.tasks == c.tasks && c'.fans == c.fans && c'.maps == c.maps && c'.awaits == c.awaits
    && c'.children == c.children
  }

  lemma OneSame(f: Flow, c: Control, c': Control, node: string)
    requires SameOpen(c, c')
    ensures OnTask(f, c, node) ==> OnTask(f, c', node)
    ensures OnChild(f, c, node) ==> OnChild(f, c', node)
    ensures OnAwait(f, c, node) ==> OnAwait(f, c', node)
  {
    hide TaskOk, ChildOk;
  }

  lemma MapSame(f: Flow, c: Control, c': Control, m: string)
    requires OnMap(f, c, m) && SameOpen(c, c')
    ensures OnMap(f, c', m)
  {
    hide TaskOk, ChildOk, ParallelLimit;
  }

  lemma FanSame(f: Flow, c: Control, c': Control, fan: string)
    requires OnFan(f, c, fan) && SameOpen(c, c')
    ensures OnFan(f, c', fan)
  {
    hide TaskOk, ChildOk, Verdict, WaitFor;
    assert forall b :: BranchOpen(c', b) == BranchOpen(c, b);
  }

  /** A timer fired: only the instance or await it serves may be left without one. */
  lemma FiredTimed(f: Flow, c: Control, c': Control, id: nat)
    requires Timed(f, c) && id in c.timers && c' == c.(timers := c.timers - {id})
    ensures !c.timers[id].AwaitTimer? ==> TimedBut(f, c', c.timers[id].key)
    ensures !ServesAny(c, id) ==> Timed(f, c')
  {
    hide TaskTimed;
    forall k | k in c.tasks && !Serves(c, id, k) ensures TaskTimed(f, c', k) { FiredTask(f, c, c', id, k); }
    forall a | a in c.awaits && !(c.timers[id].AwaitTimer? && c.timers[id].node == a && c.awaits[a].timer == id)
      ensures AwaitTimed(c', a)
    {
      assert AwaitTimed(c, a);
    }
  }

  /** Timer id is the one its task or await waits for. */
  predicate ServesAny(c: Control, id: nat) {
    id in c.timers &&
    if c.timers[id].AwaitTimer? then c.timers[id].node in c.awaits && c.awaits[c.timers[id].node].timer == id
    else Serves(c, id, c.timers[id].key)
  }

  lemma FiredRest(f: Flow, s: State, t: State, id: nat)
    requires Resting(f, s) && id in s.ctl.timers && t.ctl == s.ctl.(timers := s.ctl.timers - {id})
    requires t.phase.Live? && Exists(t) && t.exec == s.exec && t.data == s.data
    ensures !s.ctl.timers[id].AwaitTimer? ==> RestingBut(f, t, s.ctl.timers[id].key)
    ensures !ServesAny(s.ctl, id) ==> Resting(f, t)
  {
    hide Held, Timed, TimedBut, DataOk, Quiet, StepsOk, ServesAny;
    FiredTimed(f, s.ctl, t.ctl, id);
    HeldSame(f, s.ctl, t.ctl);
    assert Numbered(t.ctl);
    hide Numbered;
    QuietSame(s, t);
    StepsSame(f, s, t);
  }

  // ---- Retrying ----

  function RetryControl(c: Control, e: NodeEvent, at: int): Control
    requires e.NodeFail?
  {
    TimerSetControl(NodeControl(c, e), RetryTimer(at, e.key, e.generation, e.attempt + 1))
  }

  lemma RetryReplaces(f: Flow, c: Control, k: Key, e: NodeEvent, at: int)
    requires Numbered(c) && e.NodeFail? && e.key == k && e.willRetry
    requires IsCurrent(c, k, e.generation, e.attempt) && TaskOk(f, k, c.tasks[k], c.tasks[k].owner)
    requires e.attempt < MaxAttempts(f.byId[c.tasks[k].node])
    ensures var c' := RetryControl(c, e, at);
            Numbered(c') && Replaced(f, c, c', k) && TaskTimed(f, c', k) && TimersKept(c, c')
  {
    hide MaxAttempts;
    var c' := RetryControl(c, e, at);
    assert c'.timers[c'.n] == RetryTimer(at, k, e.generation, e.attempt + 1);
  }

  lemma InterruptReplaces(f: Flow, c: Control, k: Key, e: NodeEvent)
    requires Numbered(c) && e.Interrupted? && e.key == k && k in c.tasks && TaskOk(f, k, c.tasks[k], c.tasks[k].owner)
    ensures var c' := NodeControl(c, e);
            Numbered(c') && Replaced(f, c, c', k) && TaskTimed(f, c', k) && TimersKept(c, c')
  {
    hide MaxAttempts;
  }

  // ---- Data ----

  lemma TypedWritten(f: Flow, channels: map<string, Json>, writes: map<string, Json>)
    requires Typed(f, channels) && WritesReduce(f, channels, writes)
    ensures Typed(f, Written(f, channels, writes))
  {
    forall c | c in f.channels ensures Fits(f.channels[c].reducer, Get(Written(f, channels, writes), c, Null)) {
      if c in writes {
        var v := Reduce(ReducerOf(f, c), Get(channels, c, Null), writes[c]);
        assert v.Some?;
      }
    }
  }

  predicate WithinBudget(f: Flow, counters: map<string, real>, usage: map<string, real>) {
    forall k | k in f.budget :: Get(counters, k, 0.0) + Get(usage, k, 0.0) <= f.budget[k]
  }

  lemma UsageInBudget(f: Flow, counters: map<string, real>, usage: map<string, real>)
    ensures WithinBudget(f, counters, usage) <==> InBudget(f, AddUsage(counters, usage))
    ensures WithinBudget(f, counters, map[]) <==> InBudget(f, counters)
  {
    var sum := AddUsage(counters, usage);
    forall k | k in f.budget ensures Get(sum, k, 0.0) == Get(counters, k, 0.0) + Get(usage, k, 0.0) {}
    forall k | k in f.budget ensures Get(counters, k, 0.0) + Get(map[], k, 0.0) == Get(counters, k, 0.0) {}
  }

  lemma RestingIsBoundary(f: Flow, s: State)
    requires Resting(f, s)
    ensures Boundary(f, s)
  {
  }

  /** A completion keeps channels typed; budgets are checked after it. */
  lemma NodeDoneData(f: Flow, d: Data, c: Control, e: NodeEvent, time: int)
    requires DataOk(f, d) && e.NodeDone? && e.key in c.tasks && Declared(f, d, e.writes)
    ensures var d' := NodeData(f, d, c, e, time);
            Shaped(f, d') && d'.steps == d.steps && d'.buffered == d.buffered
  {
    TypedWritten(f, d.channels, e.writes);
    hide Typed, InBudget, StepsBounded, Written;
  }

  lemma NodeFailData(f: Flow, d: Data, c: Control, e: NodeEvent, time: int)
    requires DataOk(f, d) && e.NodeFail? && e.key in c.tasks
    ensures var d' := NodeData(f, d, c, e, time);
            && Shaped(f, d') && d'.steps == d.steps && d'.buffered == d.buffered
            && (WithinBudget(f, d.counters, e.usage) ==> DataOk(f, d'))
  {
    UsageInBudget(f, d.counters, e.usage);
    NodeFailFields(f, d, c, e, time);
    hide NodeData, Typed, InBudget, StepsBounded, WithinBudget, AddUsage;
  }

  lemma NodeFailFields(f: Flow, d: Data, c: Control, e: NodeEvent, time: int)
    requires e.NodeFail? && e.key in c.tasks
    ensures var d' := NodeData(f, d, c, e, time);
            && d'.steps == d.steps && d'.buffered == d.buffered && d'.channels == d.channels
            && d'.counters == AddUsage(d.counters, e.usage)
  {
    hide AddUsage, Written, IsItem;
  }

  lemma InBudgetNow(f: Flow, d: Data)
    requires WithinBudget(f, d.counters, map[]) && Shaped(f, d)
    ensures DataOk(f, d)
  {
    UsageInBudget(f, d.counters, map[]);
    hide Typed, InBudget, StepsBounded, WithinBudget, AddUsage;
  }

  lemma DoneKids(s: State, t: State, e: NodeEvent)
    requires OwnChildren(s) && e.NodeDone? && t.ctl == NodeControl(s.ctl, e) && t.exec == s.exec && e.key in s.ctl.tasks
    ensures OwnChildren(t)
  {
    RemovedShape(s.ctl, e, e.key);
  }

  lemma FailKids(s: State, t: State, e: NodeEvent)
    requires OwnChildren(s) && (e.NodeFail? || e.Interrupted?) && t.ctl == NodeControl(s.ctl, e) && t.exec == s.exec
    ensures OwnChildren(t)
  {
  }

  lemma DynamicRoute(f: Flow, n: Node, dyn: string)
    requires NodeKnown(f, n.id) && f.byId[n.id] == n && (dyn == "" || dyn in n.dynamic)
    ensures RouteOk(f, dyn) && RouteOk(f, n.next)
  {
    if dyn in n.dynamic {
      var i :| 0 <= i < |n.dynamic| && n.dynamic[i] == dyn;
      assert Enterable(f, n.dynamic[i]);
    }
  }

  lemma RetryWaits(n: Node, attempt: nat)
    requires n.retry.Some?
    ensures Backoff(n, attempt) > 0
  {
  }

  lemma InterruptData(f: Flow, d: Data, c: Control, e: NodeEvent, time: int)
    requires DataOk(f, d) && e.Interrupted?
    ensures var d' := NodeData(f, d, c, e, time);
            Shaped(f, d') && d'.steps == d.steps && d'.buffered == d.buffered
  {
    hide Typed, InBudget, StepsBounded, AddUsage;
  }

  lemma RestingRuns(f: Flow, s: State)
    requires Resting(f, s)
    ensures Running(s) && OwnChildren(s) && Shaped(f, s.data)
  {
  }

  /** The node of an open task, as a lemma that takes the state at rest. */
  lemma OpenTaskNode(f: SoundFlow, s: State, k: Key)
    requires RestingBut(f, s, k) && k in s.ctl.tasks
    ensures NodeKnown(f, s.ctl.tasks[k].node) && s.ctl.tasks[k].node == k.node
  {
    OpenTask(f, s.ctl, k);
  }

  /** The retry timer of a retrying task is due: its next attempt is within the limit. */
  lemma RetryDue(f: SoundFlow, s: State, t: State, k: Key)
    requires Resting(f, s) && k in s.ctl.tasks && s.ctl.tasks[k].status.TaskRetrying? && t.ctl.tasks == s.ctl.tasks
    ensures NodeKnown(f, t.ctl.tasks[k].node) && t.ctl.tasks[k].node == k.node
    ensures t.ctl.tasks[k].attempt < MaxAttempts(f.byId[t.ctl.tasks[k].node]) && t.ctl.tasks[k].generation > 0
  {
    OpenTask(f, s.ctl, k);
    assert TaskTimed(f, s.ctl, k);
    hide Held, DataOk, Quiet, StepsOk, NodeKnown;
  }

  lemma AwaitDue(f: SoundFlow, s: State, t: State, node: string)
    requires Resting(f, s) && SameOpen(s.ctl, t.ctl) && t.ctl.n == s.ctl.n && t.ctl.timers.Keys <= s.ctl.timers.Keys
    requires node in t.ctl.awaits && t.data == s.data
    ensures OnAwait(f, t.ctl, node) && Numbered(t.ctl) && DataOk(f, t.data)
    ensures node in f.byId && RouteOk(f, f.byId[node].onTimeout)
  {
    HeldAwait(f, s.ctl, node);
    OneSame(f, s.ctl, t.ctl, node);
    assert Known(f, node);
    hide Held, DataOk, Quiet, StepsOk, FanoutOk, RuleOk, RouteOk, Timed;
  }

  // ---- Signals, updates, starts ----

  /** t is s after a signal arrived. */
  ghost predicate GotSignal(s: State, t: State) {
    && t.ctl == s.ctl && t.phase.Live? && Exists(t) && t.exec == s.exec
    && t.data.channels == s.data.channels && t.data.counters == s.data.counters && t.data.steps == s.data.steps
  }

  lemma SignalDue(f: SoundFlow, s: State, t: State, a: string)
    requires Resting(f, s) && GotSignal(s, t) && a in t.ctl.awaits
    ensures OnAwait(f, t.ctl, a) && Numbered(t.ctl) && Timed(f, t.ctl) && DataOk(f, t.data)
    ensures f.byId[a].id == a && RouteOk(f, f.byId[a].next)
  {
    HeldAwait(f, s.ctl, a);
    assert Known(f, a);
    hide Held, Numbered, Timed, Quiet, StepsOk, FanoutOk, RuleOk, RouteOk, Typed, InBudget, StepsBounded;
  }

  lemma SignalRest(f: Flow, s: State, t: State, name: string)
    requires Resting(f, s) && GotSignal(s, t) && forall a | a in t.ctl.awaits :: t.ctl.awaits[a].signal != name
    requires |t.data.buffered| == |s.data.buffered| + 1 && t.data.buffered[..|s.data.buffered|] == s.data.buffered
    requires t.data.buffered[|s.data.buffered|].name == name
    ensures Resting(f, t)
  {
    StepsSame(f, s, t);
    forall other | other != name ensures Buffers(t.data, other) <==> Buffers(s.data, other) {
      if Buffers(t.data, other) {
        var i :| 0 <= i < |t.data.buffered| && t.data.buffered[i].name == other;
        assert s.data.buffered[i] == t.data.buffered[i];
      }
      if Buffers(s.data, other) {
        var i :| 0 <= i < |s.data.buffered| && s.data.buffered[i].name == other;
        assert s.data.buffered[i] == t.data.buffered[i];
      }
    }
    hide Held, Numbered, Timed, StepsOk, Typed, InBudget, StepsBounded, Buffers;
  }

  lemma ChildData(f: Flow, d: Data, c: Control, e: WaitEvent, time: int)
    requires DataOk(f, d) && e.ChildDone?
    ensures var d' := WaitData(d, c, e, time);
            Shaped(f, d') && d'.steps == d.steps
  {
    hide Typed, InBudget, StepsBounded, AddUsage;
  }

  lemma ReportKids(s: State, t: State, k: Key, ok: bool, output: Json)
    requires OwnChildren(s) && k in s.ctl.children && t.exec == s.exec
    requires t.ctl == ChildSettled(s.ctl, k, s.ctl.children[k].node, ok, output)
    ensures OwnChildren(t)
  {
    ReportedShape(s.ctl, k, ok, output);
  }

  lemma ChildNode(f: Flow, node: string)
    requires NodeKnown(f, node)
    ensures f.byId[node].id == node
  {
  }

  lemma UpdateRest(f: Flow, s: State, t: State, id: string, writes: map<string, Json>, now: int)
    requires Resting(f, s) && Declared(f, s.data, writes)
    requires t == s.(data := NodeData(f, s.data, s.ctl, ChannelsUpdated(id, writes), now), book := NextBook(s.book))
    ensures Resting(f, t)
  {
    hide Held, Numbered, Timed, Typed, InBudget, StepsBounded, Written, Quiet, StepsOk;
    TypedWritten(f, s.data.channels, writes);
    QuietSame(s, t);
    StepsSame(f, s, t);
  }

  lemma BoundaryExists(f: Flow, s: State)
    ensures Boundary(f, s) ==> Exists(s)
  {
  }

  lemma BoundaryLive(f: Flow, s: State)
    requires Boundary(f, s)
    ensures Terminal(s.phase) || Resting(f, s)
    ensures Resting(f, s) ==> s.phase.Live?
  {
  }

  lemma StartReady(f: SoundFlow, s: State, input: Json, time: int)
    requires s == New(s.exec) && input.Obj?
    ensures var b := OfLife(Started(s.exec, f.name, input));
            Guard(f, s, b) && Ready(f, After(f, s, b, time)) && After(f, s, b, time).exec == s.exec
  {
    hide NodeOk;
    assert Known(f, f.startId);
    var d := EMPTY_DATA.(channels := map[] + Defaults(f));
    assert Typed(f, d.channels);
    assert 0 <= MaxSteps(f) + |f.byId[f.startId].branches| + 1;
  }

  // ---- Over budget ----

  /** Usage over budget justifies failing. */
  lemma OverJustifies(f: Flow, before: seq<Event>, s: State, node: string)
    requires !WithinBudget(f, s.data.counters, map[])
    ensures Justified(f, before, s, ReasonBudget, node)
  {
    UsageInBudget(f, s.data.counters, map[]);
  }

  lemma LostJustifies(f: Flow, before: seq<Event>, d: Data, s: State, c: Control, e: NodeEvent, time: int)
    requires e.NodeFail? && e.key in c.tasks && s.data == NodeData(f, d, c, e, time) && !WithinBudget(f, d.counters, e.usage)
    ensures Justified(f, before, s, ReasonBudget, e.node)
  {
    hide NodeData, WithinBudget, InBudget, AddUsage;
    NodeFailFields(f, d, c, e, time);
    UsageInBudget(f, d.counters, e.usage);
  }
}
