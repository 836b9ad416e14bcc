/** The state of an execution as the fold of its events.

    `Apply` folds one event. The state is grouped by what changes together: `Control` (what is
    in flight), `Data` (what expressions and workers see) and `Book` (positions in the log).
    The next control part depends on the control part and the event alone. */
module Fold {
  import opened Values
  import opened Flows
  import Memory

  datatype Phase = Absent | Live | Completed | ExecFailed | ExecCancelled

  predicate Terminal(p: Phase) { p.Completed? || p.ExecFailed? || p.ExecCancelled? }

  /** An instance: a node, or one item of a map node ("node#i"; node ids contain no '#'). */
  datatype Key = Plain(node: string) | Item(node: string, index: nat)

  datatype TaskStatus = TaskScheduled | TaskRetrying | TaskInterrupted

  datatype Task = Task(
    node: string, index: nat, owner: string, generation: nat, attempt: nat, status: TaskStatus, item: Json,
    resume: Option<Json>, resumedBy: string, interrupt: Json)

  datatype Fan = Fan(join: string, branches: map<string, BranchStatus>)

  datatype MapRun = MapRun(items: seq<Json>, outputs: seq<Json>, done: nat, next: nat, maxParallel: int)

  datatype Await = Await(signal: string, timer: nat)

  /** The id of the n-th allocation of execution parent. */
  datatype ChildId = ChildId(parent: string, n: nat)

  datatype Child = Child(id: ChildId, abandon: bool, node: string, owner: string, index: nat)

  datatype Timer =
    | RetryTimer(at: int, key: Key, generation: nat, attempt: nat)
    | TimeoutTimer(at: int, key: Key, generation: nat, attempt: nat)
    | AwaitTimer(at: int, node: string)

  /** What is in flight. n is the last number given to a generation, timer or child. */
  datatype Control = Control(
    tasks: map<Key, Task>, fans: map<string, Fan>, maps: map<string, MapRun>, awaits: map<string, Await>,
    children: map<Key, Child>, timers: map<nat, Timer>, n: nat)

  datatype Signal = Signal(name: string, id: string, payload: Json)

  datatype Data = Data(
    channels: map<string, Json>, results: map<string, Json>, lastNode: string, visits: map<string, nat>, steps: nat,
    signals: map<string, Json>, buffered: seq<Signal>, signalIds: map<string, int>, updateIds: map<string, int>,
    counters: map<string, real>, branches: map<string, BranchStatus>, errors: map<string, NodeError>)

  /** A stretch of history archived by a continuation, by event index and stream sequence. */
  datatype Segment = Segment(firstIndex: nat, lastIndex: nat, firstSeq: nat, lastSeq: nat)

  datatype Book = Book(
    events: nat, base: nat, segments: seq<Segment>, forkedFrom: string, forkSeq: nat)

  datatype State = State(
    exec: string, flow: string, phase: Phase, input: Json, data: Data, ctl: Control, book: Book,
    output: Json, reason: Option<Reason>)

  /** Events of the whole execution. */
  datatype LifeEvent =
    | Started(exec: string, flow: string, input: Json)
    | Forked(exec: string, from: string, atSeq: nat, state: State)
    | Continued(state: State, segment: Segment)
    | ExecutionCompleted(output: Json)
    | ExecutionFailed(reason: Reason, node: string, cancel: set<ChildId>)
    | ExecutionCancelled(why: string, cancel: set<ChildId>)
    | Entered(node: string)

  /** Events of task instances, and writes. */
  datatype NodeEvent =
    | Scheduled(key: Key, node: string, index: nat, generation: nat, attempt: nat, owner: string, item: Json,
                resume: Option<Json>, resumedBy: string)
    | NodeDone(key: Key, node: string, generation: nat, attempt: nat, output: Json, writes: map<string, Json>,
               to: string, usage: map<string, real>)
    | NodeFail(key: Key, node: string, generation: nat, attempt: nat, reason: Reason, willRetry: bool,
               usage: map<string, real>)
    | Interrupted(key: Key, node: string, generation: nat, payload: Json, usage: map<string, real>)
    | NodeCancel(key: Key, node: string)
    | Choice(node: string, rule: nat, to: string)
    | ChannelsUpdated(id: string, writes: map<string, Json>)

  /** Events of fan-outs and maps. */
  datatype GraphEvent =
    | FanoutStarted(node: string, join: string, branches: seq<string>)
    | JoinDone(node: string, fanout: string, succeeded: seq<string>, failed: seq<string>, ok: bool, output: Json,
               cancel: set<ChildId>)
    | MapStarted(node: string, items: seq<Json>, maxParallel: int)
    | MapCompleted(node: string)
    | MapAborted(node: string, index: nat, cancel: set<ChildId>)

  /** Events of awaits, signals, children and timers. */
  datatype WaitEvent =
    | AwaitStarted(node: string, signal: string, timerId: nat)
    | AwaitTimedOut(node: string, to: string)
    | SignalReceived(name: string, id: string, payload: Json)
    | SignalConsumed(node: string, name: string, id: string)
    | ChildStarted(key: Key, child: Child, input: Json)
    | ChildDone(key: Key, node: string, childId: ChildId, ok: bool, output: Json, counters: map<string, real>)
    | TimerSet(timerId: nat, timer: Timer)
    | TimerFired(timerId: nat)

  datatype Body = OfLife(life: LifeEvent) | OfNode(work: NodeEvent) | OfGraph(graph: GraphEvent) | OfWait(wait: WaitEvent)

  /** index is the 1-based position in the execution's history. */
  datatype Event = Event(index: nat, time: int, cmdId: string, body: Body)

  const EMPTY_CONTROL := Control(map[], map[], map[], map[], map[], map[], 0)
  const EMPTY_DATA := Data(map[], map[], "", map[], 0, map[], [], map[], map[], map[], map[], map[])

  function New(exec: string): State {
    State(exec, "", Absent, Null, EMPTY_DATA, EMPTY_CONTROL, Book(0, 0, [], "", 0), Null, None)
  }

  predicate Exists(s: State) { s.book.events > 0 }

  function Max(a: nat, b: nat): nat { if a < b then b else a }

  function AddUsage(c: map<string, real>, u: map<string, real>): map<string, real> {
    map k | k in c.Keys + u.Keys :: Get(c, k, 0.0) + Get(u, k, 0.0)
  }

  function ReducerOf(f: Flow, name: string): Reducer {
    if name in f.channels then f.channels[name].reducer else Replace
  }

  predicate WritesReduce(f: Flow, channels: map<string, Json>, writes: map<string, Json>) {
    forall c | c in writes :: Reduce(ReducerOf(f, c), Get(channels, c, Null), writes[c]).Some?
  }

  function WrittenTo(f: Flow, channels: map<string, Json>, c: string, delta: Json): Json {
    var v := Reduce(ReducerOf(f, c), Get(channels, c, Null), delta);
    if v.Some? then v.value else Null
  }

  /** The channels after writes that all reduce. */
  function Written(f: Flow, channels: map<string, Json>, writes: map<string, Json>): map<string, Json> {
    map c | c in channels.Keys + writes.Keys ::
      if c in writes then WrittenTo(f, channels, c, writes[c]) else channels[c]
  }

  // ---- Control ----

  /** Whether an instance of node owned by owner is an item of an open map. */
  predicate IsItem(c: Control, owner: string, node: string) { owner in c.maps && node == owner }

  function Marked(c: Control, owner: string, node: string, outcome: BranchStatus): map<string, Fan> {
    if owner in c.fans then
      c.fans[owner := c.fans[owner].(branches := c.fans[owner].branches[node := outcome])]
    else c.fans
  }

  /** Task key is gone; if a fan-out owns it, the branch has the outcome. */
  function Settled(c: Control, key: Key, outcome: BranchStatus): Control {
    if key !in c.tasks then c
    else
      var t := c.tasks[key];
      c.(tasks := c.tasks - {key}, fans := Marked(c, t.owner, t.node, outcome))
  }

  function ItemDone(c: Control, owner: string, index: nat, output: Json): map<string, MapRun>
    requires owner in c.maps
  {
    var m := c.maps[owner];
    if index < |m.outputs| then c.maps[owner := m.(outputs := m.outputs[index := output], done := m.done + 1)]
    else c.maps
  }

  function ItemStarted(c: Control, owner: string, node: string, index: nat): map<string, MapRun> {
    if IsItem(c, owner, node) then
      c.maps[owner := c.maps[owner].(next := Max(c.maps[owner].next, index + 1))]
    else c.maps
  }

  predicate Owned(c: Control, k: Key, owner: string) { k in c.children && c.children[k].owner == owner }

  /** The children left once those owned by owner are forgotten. */
  function WithoutChildren(c: Control, owner: string): map<Key, Child> {
    map k | k in c.children && c.children[k].owner != owner :: c.children[k]
  }

  function ControlStep(c: Control, b: Body): Control {
    match b
    case OfLife(_) => c
    case OfNode(e) => NodeControl(c, e)
    case OfGraph(e) => GraphControl(c, e)
    case OfWait(e) => WaitControl(c, e)
  }

  function NodeControl(c: Control, e: NodeEvent): Control {
    match e
    case Scheduled(key, node, index, generation, attempt, owner, item, resume, resumedBy) =>
      var interrupt := if key in c.tasks && resume.Some? then c.tasks[key].interrupt else Null;
      c.(tasks := c.tasks[key := Task(node, index, owner, generation, attempt, TaskScheduled, item, resume, resumedBy,
                                      interrupt)],
         n := Max(c.n, generation),
         maps := ItemStarted(c, owner, node, index))
    case NodeDone(key, _, _, _, output, _, _, _) =>
      if key !in c.tasks then c
      else
        var t := c.tasks[key];
        Settled(c, key, Succeeded).(maps := if IsItem(c, t.owner, t.node) then ItemDone(c, t.owner, t.index, output) else c.maps)
    case NodeFail(key, _, _, _, _, willRetry, _) =>
      if key !in c.tasks then c
      else if willRetry then c.(tasks := c.tasks[key := c.tasks[key].(status := TaskRetrying)])
      else Settled(c, key, Failed)
    case Interrupted(key, _, _, payload, _) =>
      if key !in c.tasks then c
      else c.(tasks := c.tasks[key := c.tasks[key].(status := TaskInterrupted, interrupt := payload)])
    case NodeCancel(key, _) => Settled(c, key, Dropped)
    case Choice(_, _, _) => c
    case ChannelsUpdated(_, _) => c
  }

  function GraphControl(c: Control, e: GraphEvent): Control {
    match e
    case FanoutStarted(node, join, branches) =>
      c.(fans := c.fans[node := Fan(join, map b | b in branches :: Pending)])
    case JoinDone(_, fanout, _, _, _, _, _) =>
      c.(children := if fanout in c.fans then WithoutChildren(c, fanout) else c.children, fans := c.fans - {fanout})
    case MapStarted(node, items, maxParallel) =>
      c.(maps := c.maps[node := MapRun(items, seq(|items|, _ => Null), 0, 0, maxParallel)])
    case MapCompleted(node) => c.(maps := c.maps - {node})
    case MapAborted(node, _, _) => c.(children := WithoutChildren(c, node), maps := c.maps - {node})
  }

  function WaitControl(c: Control, e: WaitEvent): Control {
    match e
    case AwaitStarted(node, signal, timerId) => c.(awaits := c.awaits[node := Await(signal, timerId)])
    case AwaitTimedOut(node, _) => AwaitClosed(c, node)
    case SignalReceived(_, _, _) => c
    case SignalConsumed(node, _, _) => AwaitClosed(c, node)
    case ChildStarted(key, child, _) =>
      c.(children := c.children[key := child], n := Max(c.n, child.id.n),
         maps := ItemStarted(c, child.owner, child.node, child.index))
    case ChildDone(key, node, _, ok, output, _) => ChildSettled(c, key, node, ok, output)
    case TimerSet(id, timer) => c.(timers := c.timers[id := timer], n := Max(c.n, id))
    case TimerFired(id) => c.(timers := c.timers - {id})
  }

  function AwaitClosed(c: Control, node: string): Control {
    if node in c.awaits then c.(timers := c.timers - {c.awaits[node].timer}, awaits := c.awaits - {node})
    else c
  }

  function ChildSettled(c: Control, key: Key, node: string, ok: bool, output: Json): Control {
    if key !in c.children then c
    else
      var ch := c.children[key];
      var rest := c.(children := c.children - {key});
      if IsItem(c, ch.owner, node) then
        if ok then rest.(maps := ItemDone(c, ch.owner, ch.index, output)) else rest
      else rest.(fans := Marked(c, ch.owner, node, if ok then Succeeded else Failed))
  }

  // ---- Data ----

  /** The data part after a foldable event. */
  function DataStep(f: Flow, d: Data, c: Control, b: Body, time: int): Data {
    match b
    case OfLife(e) => LifeData(d, e)
    case OfNode(e) => NodeData(f, d, c, e, time)
    case OfGraph(e) => GraphData(d, c, e)
    case OfWait(e) => WaitData(d, c, e, time)
  }

  function LifeData(d: Data, e: LifeEvent): Data {
    if e.Entered? then d.(visits := d.visits[e.node := Get(d.visits, e.node, 0) + 1], steps := d.steps + 1) else d
  }

  function NodeData(f: Flow, d: Data, c: Control, e: NodeEvent, time: int): Data {
    match e
    case NodeDone(key, _, _, _, output, writes, _, usage) =>
      if key !in c.tasks then d
      else
        var t := c.tasks[key];
        var item := IsItem(c, t.owner, t.node);
        d.(channels := Written(f, d.channels, writes), counters := AddUsage(d.counters, usage),
           results := if item then d.results else d.results[t.node := output],
           lastNode := if item then d.lastNode else t.node,
           errors := if item then d.errors else d.errors - {t.node})
    case NodeFail(key, _, _, attempt, reason, willRetry, usage) =>
      if key !in c.tasks then d
      else
        var t := c.tasks[key];
        var error := NodeError(reason, attempt, if IsItem(c, t.owner, t.node) then Some(t.index) else None);
        d.(counters := AddUsage(d.counters, usage),
           errors := if willRetry then d.errors else d.errors[t.node := error],
           lastNode := if willRetry then d.lastNode else t.node)
    case Interrupted(_, _, _, _, usage) => d.(counters := AddUsage(d.counters, usage))
    case ChannelsUpdated(id, writes) =>
      d.(channels := Written(f, d.channels, writes), updateIds := Memory.Remember(d.updateIds, id, time))
    case _ => d
  }

  function GraphData(d: Data, c: Control, e: GraphEvent): Data {
    match e
    case JoinDone(node, fanout, _, _, ok, output, _) =>
      d.(branches := if fanout in c.fans then JoinedBranches(c, fanout) else d.branches,
         results := d.results[node := output], lastNode := node,
         errors := if ok then d.errors - {node} else d.errors[node := NodeError(ReasonJoin, 0, None)])
    case MapCompleted(node) =>
      if node !in c.maps then d
      else d.(results := d.results[node := Arr(c.maps[node].outputs)], lastNode := node, errors := d.errors - {node})
    case _ => d
  }

  function WaitData(d: Data, c: Control, e: WaitEvent, time: int): Data {
    match e
    case SignalReceived(name, id, payload) =>
      d.(buffered := d.buffered + [Signal(name, id, payload)], signalIds := Memory.Remember(d.signalIds, id, time))
    case SignalConsumed(node, name, id) =>
      var i := FirstId(d.buffered, id);
      if i == |d.buffered| then d
      else
        var payload := d.buffered[i].payload;
        d.(buffered := d.buffered[..i] + d.buffered[i + 1..], signals := d.signals[name := payload],
           results := d.results[node := payload], lastNode := node)
    case ChildDone(key, node, _, ok, output, counters) =>
      var item := key in c.children && IsItem(c, c.children[key].owner, node);
      var error := NodeError(ReasonChild, 0, if item then Some(c.children[key].index) else None);
      d.(counters := AddUsage(d.counters, counters),
         results := if item then d.results else d.results[node := output],
         lastNode := if item && ok then d.lastNode else node,
         errors := if !ok then d.errors[node := error] else if item then d.errors else d.errors - {node})
    case _ => d
  }

  /** The branch outcomes a closing join records: children still running are dropped. */
  function JoinedBranches(c: Control, fanout: string): map<string, BranchStatus>
    requires fanout in c.fans
  {
    var dropped := set k | k in c.children && c.children[k].owner == fanout :: c.children[k].node;
    map b | b in c.fans[fanout].branches.Keys + dropped ::
      if b in dropped then Dropped else c.fans[fanout].branches[b]
  }

  /** The position of the first buffered signal with the given id, or the length. */
  function FirstId(s: seq<Signal>, id: string): (i: nat)
    ensures i <= |s|
    ensures i < |s| ==> s[i].id == id
    ensures forall j :: 0 <= j < i ==> s[j].id != id
  {
    if |s| == 0 then 0
    else if s[0].id == id then 0
    else 1 + FirstId(s[1..], id)
  }

  /** The position of the first buffered signal with the given name, or the length. */
  function FirstNamed(s: seq<Signal>, name: string): (i: nat)
    ensures i <= |s|
    ensures i < |s| ==> s[i].name == name
    ensures forall j :: 0 <= j < i ==> s[j].name != name
  {
    if |s| == 0 then 0
    else if s[0].name == name then 0
    else 1 + FirstNamed(s[1..], name)
  }

  /** Whether the event body can be folded; what is not is a corrupt log or a bug. */
  predicate Foldable(f: Flow, d: Data, c: Control, b: Body) {
    match b
    case OfLife(_) => true
    case OfNode(e) => NodeFoldable(f, d, c, e)
    case OfGraph(e) => e.MapCompleted? ==> e.node in c.maps
    case OfWait(e) => WaitFoldable(d, c, e)
  }

  predicate NodeFoldable(f: Flow, d: Data, c: Control, e: NodeEvent) {
    match e
    case NodeDone(key, _, _, _, _, writes, _, _) =>
      && key in c.tasks
      && WritesReduce(f, d.channels, writes)
      && (IsItem(c, c.tasks[key].owner, c.tasks[key].node) ==>
            c.tasks[key].index < |c.maps[c.tasks[key].owner].outputs|)
    case Interrupted(key, _, _, _, _) => key in c.tasks
    case ChannelsUpdated(_, writes) => WritesReduce(f, d.channels, writes)
    case _ => true
  }

  predicate WaitFoldable(d: Data, c: Control, e: WaitEvent) {
    match e
    case SignalConsumed(_, _, id) => FirstId(d.buffered, id) < |d.buffered|
    case ChildDone(key, node, _, ok, _, _) =>
      key in c.children && IsItem(c, c.children[key].owner, node) && ok ==>
        c.children[key].index < |c.maps[c.children[key].owner].outputs|
    case _ => true
  }

  // ---- The whole state ----

  /** Events that base a state: it is folded from them without what precedes. */
  predicate IsBase(b: Body) { b.OfLife? && (b.life.Started? || b.life.Forked? || b.life.Continued?) }

  function ClosedControl(c: Control): Control { EMPTY_CONTROL.(n := c.n) }

  function BodyStep(f: Flow, s: State, b: Body, index: nat, time: int): State {
    if b.OfLife? && !b.life.Entered? then LifeStep(f, s, b.life, index)
    else s.(data := DataStep(f, s.data, s.ctl, b, time), ctl := ControlStep(s.ctl, b))
  }

  function LifeStep(f: Flow, s: State, e: LifeEvent, index: nat): State {
    match e
    case Started(exec, flow, input) =>
      s.(exec := exec, flow := flow, input := input, phase := Live,
         data := s.data.(channels := s.data.channels + Defaults(f)))
    case Forked(exec, from, atSeq, state) =>
      state.(exec := exec, ctl := state.ctl.(timers := map[]), book := Book(0, 0, [], from, atSeq))
    case Continued(state, _) => state.(book := state.book.(base := index))
    case ExecutionCompleted(output) => s.(phase := Completed, ctl := ClosedControl(s.ctl), output := output)
    case ExecutionFailed(reason, _, _) =>
      s.(phase := ExecFailed, ctl := ClosedControl(s.ctl), reason := Some(reason))
    case ExecutionCancelled(why, _) =>
      s.(phase := ExecCancelled, ctl := ClosedControl(s.ctl), reason := Some(ReasonGiven(why)))
    case Entered(_) => s
  }

  function Defaults(f: Flow): map<string, Json> {
    map c | c in f.channels && !f.channels[c].default.Null? :: f.channels[c].default
  }

  /** A fork and a continuation replace the state: their index is checked against the one they bring. */
  function ExpectedIndex(s: State, b: Body): nat {
    if b.OfLife? && b.life.Forked? then 1
    else if b.OfLife? && b.life.Continued? then b.life.state.book.events + 1
    else s.book.events + 1
  }

  function Counted(s: State): State { s.(book := s.book.(events := s.book.events + 1)) }

  /** Folds one event; None is an event that cannot be folded. */
  function Apply(f: Flow, s: State, ev: Event): Option<State> {
    if ev.index != 0 && ev.index != ExpectedIndex(s, ev.body) then None
    else if !Foldable(f, s.data, s.ctl, ev.body) then None
    else Some(Counted(BodyStep(f, s, ev.body, ev.index, ev.time)))
  }

  /** Folds events in order; None as soon as one cannot be folded. */
  function FoldAll(f: Flow, s: State, evs: seq<Event>): Option<State>
    decreases |evs|
  {
    if |evs| == 0 then Some(s)
    else
      var before := FoldAll(f, s, evs[..|evs| - 1]);
      if before.None? then None else Apply(f, before.value, evs[|evs| - 1])
  }

  lemma {:induction false} FoldAllConcat(f: Flow, s: State, a: seq<Event>, b: seq<Event>)
    ensures FoldAll(f, s, a).None? ==> FoldAll(f, s, a + b).None?
    ensures FoldAll(f, s, a).Some? ==> FoldAll(f, s, a + b) == FoldAll(f, FoldAll(f, s, a).value, b)
    decreases |b|
  {
    hide Apply;
    if |b| == 0 {
      assert a + b == a;
    } else {
      var p := b[..|b| - 1];
      assert (a + b)[..|a + b| - 1] == a + p;
      FoldAllConcat(f, s, a, p);
    }
  }

  /** What an expression sees of the execution, and of one map item. */
  function ViewOf(s: State, item: Option<(nat, Json)>): View {
    View(s.input, s.data.channels, s.data.results, s.data.lastNode, s.data.visits, s.data.signals, s.data.branches,
         s.data.counters, s.data.errors, item)
  }
}
