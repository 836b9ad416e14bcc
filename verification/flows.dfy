/** Flow definitions: the graph of nodes an execution walks, with the indexes
    and compiled expressions that validation builds. */
module Flows {
  import opened Values

  /** What an expression sees of an execution. */
  datatype View = View(
    input: Json, channels: map<string, Json>, results: map<string, Json>, lastNode: string,
    visits: map<string, nat>, signals: map<string, Json>, branches: map<string, BranchStatus>,
    counters: map<string, real>, errors: map<string, NodeError>, item: Option<(nat, Json)>)

  datatype BranchStatus = Pending | Succeeded | Failed | Dropped

  datatype Reason =
    | ReasonError | ReasonTimeout | ReasonInvalidOutput | ReasonBudget | ReasonMaxSteps | ReasonAwaitTimeout
    | ReasonJoin | ReasonChild | ReasonExpression | ReasonDecisionTooLarge | ReasonGiven(text: string)

  /** The last failure of a node that was not retried; a map has the item it was of. */
  datatype NodeError = NodeError(reason: Reason, attempt: nat, index: Option<nat>)

  /** A compiled value expression: None is an evaluation error. */
  type Program = View -> Option<Json>

  /** A compiled predicate: None is an evaluation error. */
  type Predicate = View -> Option<bool>

  datatype NodeType = TaskNode | ChoiceNode | FanoutNode | JoinNode | AwaitNode | MapNode | SubflowNode | OtherNode

  datatype Policy = JoinAll | JoinAny | JoinQuorum(count: int) | JoinMin(count: int) | OtherPolicy

  datatype BackoffKind = BackoffFixed | BackoffLinear | BackoffExponential

  datatype Retry = Retry(maxAttempts: int, backoff: BackoffKind, delay: int, maxDelay: int)

  datatype Rule = Rule(isDefault: bool, when: Predicate, to: string)

  /** One node. A string field that is not set is empty. */
  datatype Node = Node(
    id: string, typ: NodeType, next: string, onFailure: string,
    timeout: int, retry: Option<Retry>, outputOk: Json -> bool, dynamic: seq<string>,
    rules: seq<Rule>, failOnError: bool,
    branches: seq<string>, waitFor: seq<string>, policy: Policy,
    signal: string, onTimeout: string,
    over: Program, maxParallel: int,
    flow: string, input: Option<Program>, abandon: bool)

  datatype Channel = Channel(reducer: Reducer, default: Json)

  /** byId, startId and joinOf are the indexes validation builds. */
  datatype Flow = Flow(
    name: string, start: string, nodes: seq<Node>, channels: map<string, Channel>, budget: map<string, real>,
    maxSteps: int, output: Option<Program>,
    byId: map<string, Node>, startId: string, branchOf: map<string, string>, joinOf: map<string, string>)

  /** A rule with this target leads to completion. */
  const END := "$end"
  const DEFAULT_MAX_STEPS := 1000
  const DEFAULT_MAP_PARALLEL := 100
  const MAX_PARALLEL := 256
  const MAX_BRANCHES := 256
  const MAX_RETRY_ATTEMPTS := 64
  const SECOND := 1_000_000_000
  const DEFAULT_RETRY_DELAY := SECOND
  const DEFAULT_RETRY_MAX_DELAY := 300 * SECOND
  const MAX_BACKOFF_SHIFT := 62

  function MaxSteps(f: Flow): (m: nat)
    ensures m > 0
  {
    if f.maxSteps <= 0 then DEFAULT_MAX_STEPS else f.maxSteps
  }

  function MaxAttempts(n: Node): (m: nat)
    ensures m >= 1
    ensures m > 1 ==> n.retry.Some?
  {
    if n.retry.None? || n.retry.value.maxAttempts < 1 then 1 else n.retry.value.maxAttempts
  }

  function ParallelLimit(maxParallel: int): (m: nat)
    ensures m >= 1
  {
    if maxParallel <= 0 then DEFAULT_MAP_PARALLEL else maxParallel
  }

  /** What a 64-bit signed computation that yields the mathematical value v stores. */
  function Wrap64(v: int): int {
    (v + 0x8000_0000_0000_0000) % 0x1_0000_0000_0000_0000 - 0x8000_0000_0000_0000
  }

  function Pow2(k: nat): (p: nat)
    ensures p >= 1
  {
    if k == 0 then 1 else 2 * Pow2(k - 1)
  }

  /** The delay before the given attempt, in nanoseconds. An overflowing product or
      shift wraps; the result is positive and never above the cap all the same. */
  function Backoff(n: Node, attempt: nat): (d: int)
    ensures n.retry.Some? ==> 0 < d <= BackoffCap(n.retry.value)
    ensures n.retry.None? ==> d == 0
  {
    if n.retry.None? then 0
    else
      var r := n.retry.value;
      var base := if r.delay <= 0 then DEFAULT_RETRY_DELAY else r.delay;
      var cap := BackoffCap(r);
      var k := if attempt < 2 then 1 else attempt - 1;
      if r.backoff.BackoffExponential? && k - 1 >= MAX_BACKOFF_SHIFT then cap
      else
        var d := match r.backoff
                 case BackoffLinear => (var p := Wrap64(base * k); if p < 0 || p / k != base then cap else p)
                 case BackoffExponential => Wrap64(base * Pow2(k - 1))
                 case BackoffFixed => base;
        if d <= 0 || d > cap then cap else d
  }

  function BackoffCap(r: Retry): (c: int)
    ensures c > 0
  {
    var base := if r.delay <= 0 then DEFAULT_RETRY_DELAY else r.delay;
    var cap := if r.maxDelay <= 0 then DEFAULT_RETRY_MAX_DELAY else r.maxDelay;
    if cap < base then base else cap
  }

  /** What the join of fan-out fan depends on: all branches unless it names some. */
  function WaitFor(f: Flow, fan: string): (w: seq<string>)
    requires fan in f.byId && fan in f.joinOf && f.joinOf[fan] in f.byId
  {
    var j := f.byId[f.joinOf[fan]];
    if |j.waitFor| > 0 then j.waitFor else f.byId[fan].branches
  }

  /** The successes a join policy needs out of the awaited branches. */
  function Need(p: Policy, awaited: nat): int {
    match p
    case JoinAny => 1
    case JoinQuorum(q) => q
    case JoinMin(q) => q
    case _ => awaited
  }

  predicate Distinct(s: seq<string>) {
    forall i, j :: 0 <= i < j < |s| ==> s[i] != s[j]
  }

  // ---- Soundness: what validation guarantees and the fold relies on ----

  /** A node ordinary routing may lead to: a known node that is neither a join nor a branch. */
  predicate Enterable(f: Flow, id: string) {
    && id != "" && id in f.byId
    && !f.byId[id].typ.JoinNode? && !f.byId[id].typ.OtherNode?
    && id !in f.branchOf
  }

  predicate RouteOk(f: Flow, to: string) { to != "" ==> Enterable(f, to) }

  predicate RuleOk(f: Flow, r: Rule) { r.to == END || Enterable(f, r.to) }

  predicate InFan(f: Flow, fan: string, b: string) { b in f.branchOf && f.branchOf[b] == fan }

  predicate BranchOk(f: Flow, fan: string, b: string) {
    && b in f.byId && InFan(f, fan, b)
    && (f.byId[b].typ.TaskNode? || f.byId[b].typ.SubflowNode?)
    && f.byId[b].next == "" && f.byId[b].onFailure == "" && f.byId[b].dynamic == []
  }

  predicate PolicyOk(p: Policy, awaited: nat) {
    match p
    case JoinAll => true
    case JoinAny => true
    case JoinQuorum(q) => 0 < q <= awaited
    case JoinMin(q) => 0 <= q <= awaited
    case OtherPolicy => false
  }

  predicate FanoutOk(f: Flow, n: Node) {
    && 0 < |n.branches| <= MAX_BRANCHES && Distinct(n.branches)
    && (forall i :: 0 <= i < |n.branches| ==> BranchOk(f, n.id, n.branches[i]))
    && (forall b | b in f.branchOf && f.branchOf[b] == n.id :: b in n.branches)
    && n.id in f.joinOf && f.joinOf[n.id] == n.next
    && n.next in f.byId && f.byId[n.next].typ.JoinNode?
    && (var waits := if |f.byId[n.next].waitFor| > 0 then f.byId[n.next].waitFor else n.branches;
        && Distinct(waits)
        && (forall i :: 0 <= i < |waits| ==> InFan(f, n.id, waits[i]))
        && PolicyOk(f.byId[n.next].policy, |waits|))
  }

  predicate NodeOk(f: Flow, n: Node) {
    && (n.typ.FanoutNode? || RouteOk(f, n.next))
    && RouteOk(f, n.onFailure) && RouteOk(f, n.onTimeout)
    && (forall i :: 0 <= i < |n.dynamic| ==> Enterable(f, n.dynamic[i]))
    && (n.typ.ChoiceNode? ==>
          && (forall i :: 0 <= i < |n.rules| ==> RuleOk(f, n.rules[i]))
          && (exists i :: 0 <= i < |n.rules| && n.rules[i].isDefault))
    && (n.typ.FanoutNode? ==> FanoutOk(f, n))
    && (n.typ.AwaitNode? ==> n.timeout > 0)
    && (n.typ.SubflowNode? ==> n.flow != "")
  }

  predicate Known(f: Flow, id: string) { id in f.byId }

  ghost predicate Sound(f: Flow) {
    && (forall id {:trigger Known(f, id)} | Known(f, id) :: f.byId[id].id == id && NodeOk(f, f.byId[id]))
    && Enterable(f, f.startId) && "" !in f.byId
    && (forall k | k in f.budget :: f.budget[k] > 0.0)
    && (forall c | c in f.channels :: Fits(f.channels[c].reducer, f.channels[c].default))
    && (forall a, b | a in f.joinOf && b in f.joinOf && f.joinOf[a] == f.joinOf[b] :: a == b)
  }

  /** The definition of a single task, the smallest a flow can be. */
  const ONE_TASK := Node("a", TaskNode, "", "", 0, None, _ => true, [], [], false, [], [], JoinAll, "", "", _ => None, 0,
                         "", None, false)

  const ONE_TASK_FLOW := Flow("f", "", [ONE_TASK], map[], map[], 0, None, map["a" := ONE_TASK], "a", map[], map[])

  /** A definition that validation accepted. */
  type SoundFlow = f: Flow | Sound(f) ghost witness ONE_TASK_FLOW
}
