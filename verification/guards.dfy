/** When the decider emits each event. A history is legal when every event is guarded in the
    state folded from what precedes it; what holds of legal histories holds of every run. */
module Guards {
  import opened Values
  import opened Flows
  import opened Fold
  import opened Invariants

  /** The attempt (generation, attempt) of instance k is the one running. */
  predicate IsCurrent(c: Control, k: Key, generation: nat, attempt: nat) {
    && k in c.tasks && c.tasks[k].generation == generation && c.tasks[k].attempt == attempt
    && c.tasks[k].status.TaskScheduled?
  }

  /** Children of the execution itself that must be cancelled when it closes. */
  function Cancellable(s: State): set<ChildId> {
    set k | k in s.ctl.children && !s.ctl.children[k].abandon && s.ctl.children[k].id.parent == s.exec
      :: s.ctl.children[k].id
  }

  /** Children that are neither abandoned by policy nor named in inherited. */
  function Unclaimed(c: Control, inherited: set<ChildId>): set<ChildId> {
    set k | k in c.children && !c.children[k].abandon && c.children[k].id !in inherited :: c.children[k].id
  }

  /** Children of a fan-out or map that must be cancelled when it settles. */
  function OwnedCancellable(c: Control, owner: string): set<ChildId> {
    set k | k in c.children && !c.children[k].abandon && c.children[k].owner == owner :: c.children[k].id
  }

  predicate NoTaskOf(c: Control, owner: string) { forall k | k in c.tasks :: c.tasks[k].owner != owner }

  predicate NoChildOf(c: Control, owner: string) { forall k | k in c.children :: c.children[k].owner != owner }

  /** A map item starts in order; an instance that is already open may start again. */
  predicate StartsInOrder(c: Control, k: Key, node: string, owner: string, index: nat, again: bool) {
    if IsItem(c, owner, node) then
      k == Item(node, index) && index < |c.maps[owner].items| && (index == c.maps[owner].next || again)
    else k.Plain?
  }

  /** An attempt is the first of a new generation, or the next of a retrying instance. */
  predicate ScheduleGuard(f: Flow, c: Control, e: NodeEvent)
    requires e.Scheduled?
  {
    && e.node in f.byId && e.node == e.key.node
    && StartsInOrder(c, e.key, e.node, e.owner, e.index, e.key in c.tasks)
    && (e.key in c.tasks ==>
          && c.tasks[e.key].node == e.node && c.tasks[e.key].owner == e.owner && c.tasks[e.key].index == e.index
          && c.tasks[e.key].item == e.item)
    && (|| (e.generation == c.n + 1 && e.attempt == 1)
        || (&& e.key in c.tasks && c.tasks[e.key].generation == e.generation && c.tasks[e.key].status.TaskRetrying?
            && e.attempt == c.tasks[e.key].attempt + 1 && e.attempt <= MaxAttempts(f.byId[e.node])))
  }

  predicate ChildGuard(s: State, key: Key, child: Child) {
    && child.id == ChildId(s.exec, s.ctl.n + 1)
    && child.node == key.node
    && StartsInOrder(s.ctl, key, child.node, child.owner, child.index, key in s.ctl.children)
    && (key in s.ctl.children ==>
          && s.ctl.children[key].id.parent != s.exec && s.ctl.children[key].node == child.node
          && s.ctl.children[key].owner == child.owner && s.ctl.children[key].index == child.index)
  }

  predicate Declared(f: Flow, d: Data, writes: map<string, Json>) {
    (forall c | c in writes :: c in f.channels) && WritesReduce(f, d.channels, writes)
  }

  predicate Running(s: State) { s.phase.Live? && Exists(s) }

  /** When each event may be emitted in state s. */
  ghost predicate Guard(f: Flow, s: State, b: Body) {
    match b
    case OfLife(e) => LifeGuard(f, s, e)
    case OfNode(e) => Running(s) && NodeGuard(f, s, e)
    case OfGraph(e) => Running(s) && GraphGuard(f, s, e)
    case OfWait(e) => Running(s) && WaitGuard(f, s, e)
  }

  ghost predicate LifeGuard(f: Flow, s: State, e: LifeEvent) {
    match e
    case Started(exec, _, input) => s == New(exec) && input.Obj?
    case Forked(exec, _, _, state) =>
      Boundary(f, state) && state.exec != exec && (s == New(exec) || s == state)
    case Continued(state, segment) =>
      Running(s) && state == s.(book := s.book.(segments := s.book.segments + [segment]))
    case ExecutionCompleted(output) => Running(s) && Free(s.ctl) && FlowOutput(f, s) == Some(output)
    case ExecutionFailed(_, _, cancel) => Running(s) && cancel == Cancellable(s)
    case ExecutionCancelled(_, cancel) => Running(s) && cancel == Cancellable(s)
    case Entered(node) => Running(s) && EnterGuard(f, s, node)
  }

  /** The output a flow completes with: its output expression, else every channel, else the last result. */
  function FlowOutput(f: Flow, s: State): Option<Json> {
    if f.output.Some? then
      var v := f.output.value(ViewOf(s, None));
      if v.Some? && (v.value.Null? || v.value.Obj?) then v else None
    else if |f.channels| > 0 then Some(Obj(s.data.channels))
    else Some(Get(s.data.results, s.data.lastNode, Null))
  }

  /** A node is entered by routing when nothing is open, or as a branch or the join of the open fan-out. */
  predicate EnterGuard(f: Flow, s: State, node: string) {
    if Free(s.ctl) then s.data.steps < MaxSteps(f) && Enterable(f, node)
    else exists fan | fan in s.ctl.fans :: EntersFan(f, s.ctl, fan, node)
  }

  predicate EntersFan(f: Flow, c: Control, fan: string, node: string)
    requires fan in c.fans
  {
    || (InFan(f, fan, node) && Get(c.fans[fan].branches, node, Dropped).Pending? && !BranchOpen(c, node))
    || (c.fans[fan].join == node && NoTaskOf(c, fan) && Decided(f, c, fan))
  }

  /** The join of fan-out fan has its verdict. */
  predicate Decided(f: Flow, c: Control, fan: string)
    requires fan in c.fans
  {
    && fan in f.byId && fan in f.joinOf && f.joinOf[fan] in f.byId
    && Verdict(f.byId[f.joinOf[fan]].policy, WaitFor(f, fan), c.fans[fan].branches).Some?
  }

  predicate NodeGuard(f: Flow, s: State, e: NodeEvent) {
    match e
    case Scheduled(_, _, _, _, _, _, _, _, _) => ScheduleGuard(f, s.ctl, e) && InBudget(f, s.data.counters)
    case NodeDone(key, node, generation, attempt, output, writes, to, _) =>
      && IsCurrent(s.ctl, key, generation, attempt) && s.ctl.tasks[key].node == node
      && Declared(f, s.data, writes)
      && node in f.byId && (output.Null? || (output.Obj? && f.byId[node].outputOk(output)))
      && (to != "" ==> s.ctl.tasks[key].owner == "" && to in f.byId[node].dynamic)
      && ItemInRange(s.ctl, s.ctl.tasks[key].owner, s.ctl.tasks[key].node, s.ctl.tasks[key].index)
    case NodeFail(key, node, generation, attempt, _, willRetry, _) =>
      && IsCurrent(s.ctl, key, generation, attempt) && s.ctl.tasks[key].node == node
      && (willRetry ==> node in f.byId && attempt < MaxAttempts(f.byId[node]))
    case Interrupted(key, node, generation, _, _) =>
      key in s.ctl.tasks && IsCurrent(s.ctl, key, generation, s.ctl.tasks[key].attempt) && s.ctl.tasks[key].node == node
    case NodeCancel(key, node) => key in s.ctl.tasks && s.ctl.tasks[key].node == node
    case Choice(node, rule, to) => ChoiceGuard(f, ViewOf(s, None), node, rule, to)
    case ChannelsUpdated(_, writes) => Declared(f, s.data, writes)
  }

  /** Rule j of choice n does not apply: it is the default, does not match, or fails where failing is no match. */
  predicate Skips(n: Node, view: View, j: nat)
    requires j < |n.rules|
  {
    n.rules[j].isDefault || n.rules[j].when(view) == Some(false) || (n.rules[j].when(view).None? && !n.failOnError)
  }

  /** The choice takes its first rule that applies, or else its last default; "" is a rule that fails the execution. */
  predicate ChoiceGuard(f: Flow, view: View, node: string, rule: nat, to: string) {
    && node in f.byId && f.byId[node].typ.ChoiceNode? && rule < |f.byId[node].rules|
    && (var n := f.byId[node];
        if n.rules[rule].isDefault then
          && to == n.rules[rule].to
          && (forall j :: 0 <= j < |n.rules| ==> Skips(n, view, j))
          && (forall j :: rule < j < |n.rules| ==> !n.rules[j].isDefault)
        else
          && (forall j :: 0 <= j < rule ==> Skips(n, view, j))
          && (match n.rules[rule].when(view)
              case Some(matches) => matches && to == n.rules[rule].to
              case None => n.failOnError && to == ""))
  }

  predicate GraphGuard(f: Flow, s: State, e: GraphEvent) {
    match e
    case FanoutStarted(node, join, branches) =>
      && Free(s.ctl) && node in f.byId && branches == f.byId[node].branches && node in f.joinOf && join == f.joinOf[node]
    case JoinDone(node, fanout, succeeded, failed, ok, output, cancel) =>
      && fanout in s.ctl.fans && s.ctl.fans[fanout].join == node
      && JoinGuard(f, s, fanout, succeeded, failed, ok) && output == Obj(JoinOutput(s.data, succeeded))
      && NoTaskOf(s.ctl, fanout) && cancel == OwnedCancellable(s.ctl, fanout) && OwnChildren(s)
    case MapStarted(node, items, maxParallel) =>
      && Free(s.ctl) && node in f.byId && maxParallel == f.byId[node].maxParallel
      && MapItems(f.byId[node], s) == Some(items)
    case MapCompleted(node) =>
      && node in s.ctl.maps && s.ctl.maps[node].done == |s.ctl.maps[node].items|
      && NoTaskOf(s.ctl, node) && NoChildOf(s.ctl, node)
    case MapAborted(node, _, cancel) =>
      && node in s.ctl.maps && node in f.byId && f.byId[node].onFailure != ""
      && NoTaskOf(s.ctl, node) && cancel == OwnedCancellable(s.ctl, node) && OwnChildren(s)
  }

  /** The items a map runs over: an expression that yields a list, or null for none. */
  function MapItems(n: Node, s: State): Option<seq<Json>> {
    var v := n.over(ViewOf(s, None));
    if v.None? then None
    else if v.value.Arr? then Some(v.value.elems)
    else if v.value.Null? then Some([])
    else None
  }

  /** The awaited branches that ended as st, in order. */
  function Those(waits: seq<string>, branches: map<string, BranchStatus>, st: BranchStatus): (r: seq<string>)
    ensures |r| == Count(waits, branches, st)
  {
    if |waits| == 0 then []
    else
      var last := |waits| - 1;
      Those(waits[..last], branches, st) + (if Get(branches, waits[last], Pending) == st then [waits[last]] else [])
  }

  /** The awaited branches that failed or were dropped, in order. */
  function Lost(waits: seq<string>, branches: map<string, BranchStatus>): seq<string> {
    if |waits| == 0 then []
    else
      var last := |waits| - 1;
      var status := Get(branches, waits[last], Pending);
      Lost(waits[..last], branches) + (if status.Failed? || status.Dropped? then [waits[last]] else [])
  }

  lemma {:induction false} LostAre(waits: seq<string>, branches: map<string, BranchStatus>)
    ensures forall b | b in Lost(waits, branches) :: b in waits && b in branches && (branches[b].Failed? || branches[b].Dropped?)
    decreases |waits|
  {
    if |waits| > 0 { LostAre(waits[..|waits| - 1], branches); }
  }

  /** Body b is that the join of fan-out fan settled as ok with these branches. */
  predicate JoinsAs(b: Body, fan: string, succeeded: seq<string>, ok: bool) {
    b.OfGraph? && b.graph.JoinDone? && b.graph.fanout == fan && b.graph.succeeded == succeeded && b.graph.ok == ok
  }

  /** The oldest buffered signal of the name. */
  function Oldest(d: Data, name: string): Signal
    requires Buffers(d, name)
  {
    d.buffered[FirstNamed(d.buffered, name)]
  }

  /** The join is decided, as ok; succeeded are the awaited branches that succeeded, failed none of those. */
  predicate JoinGuard(f: Flow, s: State, fan: string, succeeded: seq<string>, failed: seq<string>, ok: bool)
    requires fan in s.ctl.fans
  {
    && fan in f.byId && fan in f.joinOf && f.joinOf[fan] in f.byId
    && (var waits := WaitFor(f, fan);
        var branches := s.ctl.fans[fan].branches;
        && Verdict(f.byId[f.joinOf[fan]].policy, waits, branches) == Some(ok)
        && succeeded == Those(waits, branches, Succeeded)
        && (forall b | b in failed :: b in waits && b in branches && (branches[b].Failed? || branches[b].Dropped?)))
  }

  function JoinOutput(d: Data, succeeded: seq<string>): map<string, Json> {
    map b | b in succeeded :: Get(d.results, b, Null)
  }

  predicate WaitGuard(f: Flow, s: State, e: WaitEvent) {
    match e
    case AwaitStarted(node, signal, timerId) =>
      && timerId == s.ctl.n + 1 && (Free(s.ctl) || node in s.ctl.awaits)
      && node in f.byId && signal == f.byId[node].signal
    case AwaitTimedOut(node, to) =>
      node in s.ctl.awaits && s.ctl.awaits[node].timer !in s.ctl.timers && node in f.byId && to == f.byId[node].onTimeout
    case SignalReceived(_, id, _) => id !in s.data.signalIds
    case SignalConsumed(node, name, id) =>
      && node in s.ctl.awaits && s.ctl.awaits[node].signal == name
      && (var i := FirstNamed(s.data.buffered, name); i < |s.data.buffered| && s.data.buffered[i].id == id)
    case ChildStarted(key, child, input) =>
      ChildGuard(s, key, child) && input.Obj? && ChildInput(f, s, child) == Some(input) && InBudget(f, s.data.counters)
    case ChildDone(key, node, childId, _, _, _) =>
      && key in s.ctl.children && s.ctl.children[key].id == childId && s.ctl.children[key].node == node
      && childId.parent == s.exec
      && ItemInRange(s.ctl, s.ctl.children[key].owner, node, s.ctl.children[key].index)
    case TimerSet(timerId, _) => timerId == s.ctl.n + 1
    case TimerFired(timerId) => timerId in s.ctl.timers
  }

  /** The item a map runs at the given index. */
  function ItemAt(c: Control, owner: string, index: nat): Json {
    if owner in c.maps && index < |c.maps[owner].items| then c.maps[owner].items[index] else Null
  }

  /** The input of a child: its node's input expression, which sees the item of a map, else the item, else the input of the
      execution itself. None is an expression that fails. */
  function ChildInput(f: Flow, s: State, child: Child): Option<Json> {
    if child.node !in f.byId then None
    else
      var n := f.byId[child.node];
      var isItem := child.owner == child.node;
      var item := ItemAt(s.ctl, child.owner, child.index);
      if n.input.Some? then n.input.value(ViewOf(s, if isItem then Some((child.index, item)) else None))
      else Some(if isItem then item else s.input)
  }

  predicate ItemInRange(c: Control, owner: string, node: string, index: nat) {
    IsItem(c, owner, node) ==> index < |c.maps[owner].outputs|
  }

  function Stamp(s: State, b: Body, time: int, cmdId: string): Event {
    Event(ExpectedIndex(s, b), time, cmdId, b)
  }

  /** The state after event body b, stamped with the index it must carry. */
  function After(f: Flow, s: State, b: Body, time: int): State {
    Counted(BodyStep(f, s, b, ExpectedIndex(s, b), time))
  }

  /** A guarded event is never rejected by the fold. */
  lemma GuardFoldable(f: Flow, s: State, b: Body)
    requires Guard(f, s, b)
    ensures Foldable(f, s.data, s.ctl, b)
  {
    if b.OfWait? && b.wait.SignalConsumed? {
      var i := FirstNamed(s.data.buffered, b.wait.name);
      assert s.data.buffered[i].id == b.wait.id;
    }
  }

  // ---- Routing ----

  /** Event b leaves a node towards node to; "" completes the execution. */
  predicate Leads(f: Flow, b: Body, to: string) {
    match b
    case OfLife(e) => e.Started? && to == f.startId
    case OfNode(e) => NodeLeads(f, e, to)
    case OfGraph(e) => GraphLeads(f, e, to)
    case OfWait(e) => WaitLeads(f, e, to)
  }

  predicate NodeLeads(f: Flow, e: NodeEvent, to: string) {
    match e
    case NodeDone(_, node, _, _, _, _, dyn, _) => node in f.byId && to == (if dyn == "" then f.byId[node].next else dyn)
    case NodeFail(_, node, _, _, _, willRetry, _) => !willRetry && to != "" && node in f.byId && to == f.byId[node].onFailure
    case Choice(_, _, target) => target != "" && to == (if target == END then "" else target)
    case _ => false
  }

  predicate GraphLeads(f: Flow, e: GraphEvent, to: string) {
    match e
    case JoinDone(node, _, _, _, ok, _, _) =>
      node in f.byId && if ok then to == f.byId[node].next else to != "" && to == f.byId[node].onFailure
    case MapCompleted(node) => node in f.byId && to == f.byId[node].next
    case MapAborted(node, _, _) => to != "" && node in f.byId && to == f.byId[node].onFailure
    case _ => false
  }

  predicate WaitLeads(f: Flow, e: WaitEvent, to: string) {
    match e
    case AwaitTimedOut(_, target) => to != "" && to == target
    case SignalConsumed(node, _, _) => node in f.byId && to == f.byId[node].next
    case ChildDone(_, node, _, ok, _, _) =>
      node in f.byId && if ok then to == f.byId[node].next else to != "" && to == f.byId[node].onFailure
    case _ => false
  }

  predicate LedTo(f: Flow, before: seq<Event>, to: string) {
    |before| > 0 && Leads(f, before[|before| - 1].body, to)
  }

  /** What enters a node by routing, or completes, immediately follows an event that leads there; what fails has cause to. */
  ghost predicate Follows(f: Flow, before: seq<Event>, s: State, b: Body) {
    b.OfLife? ==>
      && (b.life.ExecutionCompleted? ==> LedTo(f, before, ""))
      && (b.life.Entered? && Free(s.ctl) ==> LedTo(f, before, b.life.node))
      && (b.life.ExecutionFailed? ==> Justified(f, before, s, b.life.reason, b.life.node))
  }

  // ---- Failing ----

  /** Event b ends a node for good, and nothing catches it: the execution fails at node for this reason. */
  predicate DeadEnd(f: Flow, b: Body, reason: Reason, node: string) {
    match b
    case OfNode(e) => NodeDeadEnd(f, e, reason, node)
    case OfGraph(e) =>
      && e.JoinDone? && !e.ok && e.node == node && reason == ReasonJoin
      && node in f.byId && f.byId[node].onFailure == ""
    case OfWait(e) =>
      || (e.AwaitTimedOut? && e.node == node && e.to == "" && reason == ReasonAwaitTimeout)
      || (&& e.ChildDone? && e.node == node && !e.ok && reason == ReasonChild
          && node in f.byId && f.byId[node].onFailure == "")
    case OfLife(_) => false
  }

  predicate NodeDeadEnd(f: Flow, e: NodeEvent, reason: Reason, node: string) {
    || (e.NodeFail? && e.node == node && !e.willRetry && e.reason == reason && node in f.byId && f.byId[node].onFailure == "")
    || (e.Choice? && e.node == node && e.to == "" && reason == ReasonExpression)
  }

  /** The child of node cannot start: its input expression fails or gives no object. */
  ghost predicate ChildFails(f: Flow, s: State, node: string) {
    exists owner, index: nat :: BadInput(f, s, node, owner, index)
  }

  predicate BadInput(f: Flow, s: State, node: string, owner: string, index: nat) {
    && node in f.byId
    && (owner == node ==> IsItem(s.ctl, owner, node) && index < |s.ctl.maps[owner].items|)
    && (var v := ChildInput(f, s, Child(ChildId(s.exec, 0), false, node, owner, index)); v.None? || !v.value.Obj?)
  }

  /** An expression the execution needs here fails, or gives a value of the wrong type. */
  ghost predicate ExpressionFails(f: Flow, before: seq<Event>, s: State, node: string) {
    || (node == "" && Free(s.ctl) && LedTo(f, before, "") && FlowOutput(f, s).None?)
    || (node in f.byId && f.byId[node].typ.MapNode? && Free(s.ctl) && MapItems(f.byId[node], s).None?)
    || ChildFails(f, s, node)
  }

  /** Why an execution may fail: a dead end, a budget exceeded, the limit of node entries, an expression, or a decision
      too large to be stored. */
  ghost predicate Justified(f: Flow, before: seq<Event>, s: State, reason: Reason, node: string) {
    || (|before| > 0 && DeadEnd(f, before[|before| - 1].body, reason, node))
    || (reason == ReasonBudget && !InBudget(f, s.data.counters))
    || (reason == ReasonMaxSteps && Free(s.ctl) && s.data.steps >= MaxSteps(f) && LedTo(f, before, node))
    || (reason == ReasonExpression && ExpressionFails(f, before, s, node))
    || reason == ReasonDecisionTooLarge
  }

  /** What precedes a history makes no difference to what its events follow. */
  lemma FollowsMore(f: Flow, a: seq<Event>, p: seq<Event>, s: State, b: Body)
    requires Follows(f, p, s, b)
    ensures Follows(f, a + p, s, b)
  {
    hide Leads, DeadEnd, Free, FlowOutput, MapItems, ChildFails, InBudget;
    assert |p| > 0 ==> (a + p)[|a + p| - 1] == p[|p| - 1];
  }

  // ---- Times ----

  function TimerNode(t: Timer): string { if t.AwaitTimer? then t.node else t.key.node }

  /** How long a timer of node n runs. */
  function Delay(n: Node, t: Timer): int { if t.RetryTimer? then Backoff(n, t.attempt) else n.timeout }

  /** A timer set at the given time is due when its node says. */
  predicate Timely(f: Flow, time: int, b: Body) {
    b.OfWait? && b.wait.TimerSet? ==>
      TimerNode(b.wait.timer) in f.byId && b.wait.timer.at == time + Delay(f.byId[TimerNode(b.wait.timer)], b.wait.timer)
  }

  /** Every event of evs is guarded where it is folded, from s0 on. */
  ghost predicate Legal(f: Flow, s0: State, evs: seq<Event>)
    decreases |evs|
  {
    |evs| > 0 ==>
      var p := evs[..|evs| - 1];
      var ev := evs[|evs| - 1];
      && Legal(f, s0, p)
      && FoldAll(f, s0, p).Some?
      && Guard(f, FoldAll(f, s0, p).value, ev.body)
      && Follows(f, p, FoldAll(f, s0, p).value, ev.body)
      && Timely(f, ev.time, ev.body)
      && ev.index == ExpectedIndex(FoldAll(f, s0, p).value, ev.body)
  }

  predicate IsFork(b: Body) { b.OfLife? && b.life.Forked? }

  /** The event records something from outside: a start, fork, continuation or cancellation, the end of an attempt or
      child, an interrupt, an update, a signal, a timer. */
  predicate External(b: Body) {
    match b
    case OfLife(e) => e.Started? || e.Forked? || e.Continued? || e.ExecutionCancelled?
    case OfNode(e) => e.NodeDone? || e.NodeFail? || e.Interrupted? || e.ChannelsUpdated?
    case OfGraph(_) => false
    case OfWait(e) => e.SignalReceived? || e.ChildDone? || e.TimerFired?
  }

  /** Event b belongs to event a: the edit of a fork, or the failure of the attempt whose timeout fired. */
  predicate Belongs(a: Body, b: Body) {
    || (IsFork(a) && b.OfNode? && b.work.ChannelsUpdated?)
    || (a.OfWait? && a.wait.TimerFired? && b.OfNode? && b.work.NodeFail? && b.work.reason == ReasonTimeout)
  }

  /** A decision has one cause: no event but its first records anything from outside, except for one that belongs to it. */
  predicate OneCause(evs: seq<Event>) {
    forall i :: 0 < i < |evs| && External(evs[i].body) ==> i == 1 && Belongs(evs[0].body, evs[1].body)
  }

  lemma OneCauseForks(evs: seq<Event>)
    requires OneCause(evs)
    ensures ForksFirst(evs)
  {
  }

  /** Only the first event may fork. */
  predicate ForksFirst(evs: seq<Event>) { forall i :: 0 < i < |evs| ==> !IsFork(evs[i].body) }

  /** No event of a legal history is rejected by the fold. */
  lemma LegalFolds(f: Flow, s0: State, evs: seq<Event>)
    requires Legal(f, s0, evs)
    ensures FoldAll(f, s0, evs).Some?
  {
    hide Guard, Follows, Timely, Foldable, BodyStep, ExpectedIndex, Counted;
    if |evs| > 0 {
      var s := FoldAll(f, s0, evs[..|evs| - 1]).value;
      GuardFoldable(f, s, evs[|evs| - 1].body);
    }
  }

  /** One guarded event extends a legal history. */
  lemma LegalSnoc(f: Flow, s0: State, evs: seq<Event>, s: State, ev: Event)
    requires Legal(f, s0, evs) && FoldAll(f, s0, evs) == Some(s)
    requires Guard(f, s, ev.body) && Follows(f, evs, s, ev.body) && Timely(f, ev.time, ev.body)
    requires ev.index == ExpectedIndex(s, ev.body)
    ensures Legal(f, s0, evs + [ev])
    ensures FoldAll(f, s0, evs + [ev]) == Some(After(f, s, ev.body, ev.time))
  {
    hide Guard, Follows, Timely, Foldable, BodyStep, ExpectedIndex, Counted;
    assert (evs + [ev])[..|evs|] == evs;
    GuardFoldable(f, s, ev.body);
  }

  lemma {:induction false} LegalConcat(f: Flow, s0: State, a: seq<Event>, s: State, b: seq<Event>)
    requires Legal(f, s0, a) && FoldAll(f, s0, a) == Some(s) && Legal(f, s, b)
    ensures Legal(f, s0, a + b)
    decreases |b|
  {
    hide Guard, Follows, Timely, Apply, ExpectedIndex;
    if |b| == 0 {
      assert a + b == a;
    } else {
      var p := b[..|b| - 1];
      LegalConcat(f, s0, a, s, p);
      FoldAllConcat(f, s0, a, p);
      assert (a + b)[..|a + b| - 1] == a + p;
      FollowsMore(f, a, p, FoldAll(f, s, p).value, b[|b| - 1].body);
    }
  }
}
