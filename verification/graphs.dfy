/** When the definition of a flow is well formed, said without reference to how it is validated. */
module Graphs {
  import opened Values
  import opened Flows

  const MAX_TOKEN := 128

  predicate TokenChar(c: char) { 'a' <= c <= 'z' || 'A' <= c <= 'Z' || '0' <= c <= '9' || c == '_' || c == '-' }

  predicate Token(s: string) { 1 <= |s| <= MAX_TOKEN && forall i :: 0 <= i < |s| ==> TokenChar(s[i]) }

  type Index = map<string, Node>

  /** What an author writes: a definition without the indexes validation builds. */
  datatype Source = Source(
    name: string, start: string, nodes: seq<Node>, channels: map<string, Channel>, budget: map<string, real>,
    maxSteps: int, output: Option<Program>)

  /** The nodes by id; of two nodes with the same id the first counts. */
  function IndexOf(nodes: seq<Node>): Index {
    if |nodes| == 0 then map[]
    else
      var rest := IndexOf(nodes[..|nodes| - 1]);
      var n := nodes[|nodes| - 1];
      if n.id in rest then rest else rest[n.id := n]
  }

  predicate DistinctIds(nodes: seq<Node>) { forall i, j :: 0 <= i < j < |nodes| ==> nodes[i].id != nodes[j].id }

  predicate IdsOk(nodes: seq<Node>) { DistinctIds(nodes) && forall i :: 0 <= i < |nodes| ==> Token(nodes[i].id) }

  lemma IndexHolds(nodes: seq<Node>)
    ensures forall i :: 0 <= i < |nodes| ==> nodes[i].id in IndexOf(nodes)
    ensures forall id | id in IndexOf(nodes) :: exists i :: 0 <= i < |nodes| && nodes[i] == IndexOf(nodes)[id] && nodes[i].id == id
    ensures DistinctIds(nodes) ==> forall i :: 0 <= i < |nodes| ==> IndexOf(nodes)[nodes[i].id] == nodes[i]
  {
    hide IndexOf;
    forall i | 0 <= i < |nodes| ensures nodes[i].id in IndexOf(nodes) { NodeIndexed(nodes, i); }
    forall id | id in IndexOf(nodes)
      ensures exists i :: 0 <= i < |nodes| && nodes[i] == IndexOf(nodes)[id] && nodes[i].id == id
    {
      var i := EntryOf(nodes, id);
    }
    if DistinctIds(nodes) {
      forall i | 0 <= i < |nodes| ensures IndexOf(nodes)[nodes[i].id] == nodes[i] { var j := EntryOf(nodes, nodes[i].id); }
    }
  }

  /** Every node is in the index. */
  lemma {:induction false} NodeIndexed(nodes: seq<Node>, i: nat)
    requires i < |nodes|
    ensures nodes[i].id in IndexOf(nodes)
    decreases |nodes|
  {
    var last := |nodes| - 1;
    if i < last {
      assert nodes[..last][i] == nodes[i];
      NodeIndexed(nodes[..last], i);
    }
  }

  /** Every entry of the index is a node with its id. */
  lemma {:induction false} EntryOf(nodes: seq<Node>, id: string) returns (i: nat)
    requires id in IndexOf(nodes)
    ensures i < |nodes| && nodes[i] == IndexOf(nodes)[id] && nodes[i].id == id
    decreases |nodes|
  {
    var last := |nodes| - 1;
    if id in IndexOf(nodes[..last]) {
      i := EntryOf(nodes[..last], id);
    } else {
      i := last;
    }
  }

  // ---- Edges ----

  function RuleTargets(rules: seq<Rule>): seq<string> {
    if |rules| == 0 then []
    else RuleTargets(rules[..|rules| - 1]) + (if rules[|rules| - 1].to != END then [rules[|rules| - 1].to] else [])
  }

  /** Where ordinary routing may lead from n. */
  function Routes(n: Node): seq<string> {
    (if n.next != "" then [n.next] else []) + RuleTargets(n.rules) + (if n.onTimeout != "" then [n.onTimeout] else [])
    + (if n.onFailure != "" then [n.onFailure] else []) + n.dynamic
  }

  /** Every node that n can transfer control to. */
  function Successors(n: Node): seq<string> { Routes(n) + n.branches }

  lemma {:induction false} RuleTargetsAre(rules: seq<Rule>, to: string)
    ensures to in RuleTargets(rules) <==> to != END && exists i :: 0 <= i < |rules| && rules[i].to == to
    decreases |rules|
  {
    if |rules| > 0 {
      var last := |rules| - 1;
      RuleTargetsAre(rules[..last], to);
      assert rules == rules[..last] + [rules[last]];
      if i :| 0 <= i < |rules| && rules[i].to == to && i < last {
        assert rules[..last][i].to == to;
      }
      if i :| 0 <= i < last && rules[..last][i].to == to {
        assert rules[i].to == to;
      }
    }
  }

  predicate IsPath(byId: Index, p: seq<string>) {
    |p| > 0 && forall i :: 0 <= i < |p| - 1 ==> p[i] in byId && p[i + 1] in Successors(byId[p[i]])
  }

  ghost predicate Reachable(byId: Index, from: string, to: string) {
    exists p :: IsPath(byId, p) && p[0] == from && p[|p| - 1] == to
  }

  lemma ReachesSelf(byId: Index, from: string)
    ensures Reachable(byId, from, from)
  {
    assert IsPath(byId, [from]);
  }

  lemma ReachesNext(byId: Index, from: string, mid: string, to: string)
    requires Reachable(byId, from, mid) && mid in byId && to in Successors(byId[mid])
    ensures Reachable(byId, from, to)
  {
    var p :| IsPath(byId, p) && p[0] == from && p[|p| - 1] == mid;
    var q := p + [to];
    forall i | 0 <= i < |q| - 1 ensures q[i] in byId && q[i + 1] in Successors(byId[q[i]]) {
      if i < |p| - 1 { assert q[i] == p[i] && q[i + 1] == p[i + 1]; }
    }
    assert IsPath(byId, q);
  }

  /** A set that holds the start and every successor of its members holds all that is reachable. */
  lemma ClosedHolds(byId: Index, seen: set<string>, from: string, to: string)
    requires from in seen && Reachable(byId, from, to)
    requires forall x, y | x in seen && x in byId && y in Successors(byId[x]) :: y in seen
    ensures to in seen
  {
    var p :| IsPath(byId, p) && p[0] == from && p[|p| - 1] == to;
    for i := 0 to |p| - 1
      invariant p[i] in seen
    {
      assert p[i + 1] in Successors(byId[p[i]]);
    }
  }

  // ---- Nodes on their own ----

  predicate Ref(byId: Index, id: string) { id != "" && id in byId }

  datatype Field =
    | FTimeout | FRetry | FDynamic | FRules | FOnError | FBranches | FWaitFor | FPolicy | FSignal | FOnTimeout
    | FMaxParallel | FFlow | FInput | FAbandon | FNext | FOnFailure

  predicate IsSet(n: Node, field: Field) {
    match field
    case FTimeout => n.timeout != 0
    case FRetry => n.retry.Some?
    case FDynamic => |n.dynamic| > 0
    case FRules => |n.rules| > 0
    case FOnError => n.failOnError
    case FBranches => |n.branches| > 0
    case FWaitFor => |n.waitFor| > 0
    case FPolicy => !n.policy.JoinAll?
    case FSignal => n.signal != ""
    case FOnTimeout => n.onTimeout != ""
    case FMaxParallel => n.maxParallel != 0
    case FFlow => n.flow != ""
    case FInput => n.input.Some?
    case FAbandon => n.abandon
    case FNext => n.next != ""
    case FOnFailure => n.onFailure != ""
  }

  function Allowed(typ: NodeType): set<Field> {
    match typ
    case TaskNode => {FTimeout, FRetry, FDynamic, FNext, FOnFailure}
    case ChoiceNode => {FRules, FOnError}
    case FanoutNode => {FBranches, FNext}
    case JoinNode => {FWaitFor, FPolicy, FNext, FOnFailure}
    case AwaitNode => {FSignal, FTimeout, FOnTimeout, FNext}
    case MapNode => {FMaxParallel, FTimeout, FRetry, FNext, FOnFailure, FFlow, FInput, FAbandon}
    case SubflowNode => {FFlow, FInput, FAbandon, FNext, FOnFailure}
    case OtherNode => {}
  }

  /** No field is set that does not apply to a node of this type. */
  predicate NoForeign(n: Node) { n.typ.OtherNode? || forall field :: IsSet(n, field) ==> field in Allowed(n.typ) }

  predicate RetryOk(r: Option<Retry>) {
    r.Some? ==> 0 <= r.value.maxAttempts <= MAX_RETRY_ATTEMPTS && r.value.delay >= 0 && r.value.maxDelay >= 0
  }

  function Defaulted(rules: seq<Rule>): (k: nat)
    ensures k > 0 ==> exists i :: 0 <= i < |rules| && rules[i].isDefault
  {
    if |rules| == 0 then 0 else Defaulted(rules[..|rules| - 1]) + (if rules[|rules| - 1].isDefault then 1 else 0)
  }

  predicate AllRefs(byId: Index, ids: seq<string>) { forall i :: 0 <= i < |ids| ==> Ref(byId, ids[i]) }

  /** What the type of a node asks of it. */
  predicate TypeOk(byId: Index, n: Node) {
    match n.typ
    case TaskNode => n.timeout >= 0 && RetryOk(n.retry) && AllRefs(byId, n.dynamic)
    case ChoiceNode =>
      && |n.rules| > 0 && Defaulted(n.rules) == 1
      && (forall i :: 0 <= i < |n.rules| ==> n.rules[i].to == END || Ref(byId, n.rules[i].to))
    case FanoutNode => 0 < |n.branches| <= MAX_BRANCHES && AllRefs(byId, n.branches) && n.next != ""
    case JoinNode =>
      && AllRefs(byId, n.waitFor) && Distinct(n.waitFor)
      && (match n.policy
          case JoinQuorum(q) => q > 0
          case JoinMin(q) => q >= 0
          case OtherPolicy => false
          case _ => true)
    case AwaitNode => Token(n.signal) && n.timeout > 0 && (n.onTimeout != "" ==> Ref(byId, n.onTimeout))
    case MapNode =>
      && 0 <= n.maxParallel <= MAX_PARALLEL
      && (if n.flow == "" then n.input.None? && !n.abandon && n.timeout >= 0 && RetryOk(n.retry)
          else n.timeout <= 0 && n.retry.None? && Token(n.flow))
    case SubflowNode => Token(n.flow)
    case OtherNode => false
  }

  /** A reference that is set names another node. */
  predicate LinkOk(byId: Index, n: Node, to: string) { to != "" ==> Ref(byId, to) && to != n.id }

  predicate NodeShape(byId: Index, n: Node) {
    NoForeign(n) && TypeOk(byId, n) && LinkOk(byId, n, n.next) && LinkOk(byId, n, n.onFailure)
  }

  // ---- Fan-outs and joins ----

  predicate BranchShape(byId: Index, b: string) {
    && b in byId && (byId[b].typ.TaskNode? || byId[b].typ.SubflowNode?)
    && byId[b].onFailure == "" && byId[b].next == "" && |byId[b].dynamic| == 0
  }

  predicate FanShape(byId: Index, n: Node) {
    && Distinct(n.branches) && (forall i :: 0 <= i < |n.branches| ==> BranchShape(byId, n.branches[i]))
    && n.next in byId && byId[n.next].typ.JoinNode?
  }

  /** Two fan-outs share neither a branch nor their join. */
  predicate Apart(a: Node, b: Node) { a.next != b.next && forall x | x in a.branches :: x !in b.branches }

  function Awaited(join: Node, fan: Node): seq<string> { if |join.waitFor| > 0 then join.waitFor else fan.branches }

  /** The join waits only for branches of the fan-out it closes, and can reach its count. */
  predicate JoinFits(join: Node, fan: Node) {
    && fan.next == join.id
    && (forall i :: 0 <= i < |join.waitFor| ==> join.waitFor[i] in fan.branches)
    && (join.policy.JoinQuorum? || join.policy.JoinMin? ==> join.policy.count <= |Awaited(join, fan)|)
  }

  predicate IsFan(nodes: seq<Node>, i: int) { 0 <= i < |nodes| && nodes[i].typ.FanoutNode? }

  ghost predicate JoinClosed(nodes: seq<Node>, join: Node) { exists i :: IsFan(nodes, i) && JoinFits(join, nodes[i]) }

  ghost predicate FansOk(nodes: seq<Node>, byId: Index) {
    && (forall i :: IsFan(nodes, i) ==> FanShape(byId, nodes[i]))
    && (forall i, j :: IsFan(nodes, i) && IsFan(nodes, j) && i < j ==> Apart(nodes[i], nodes[j]))
    && (forall i :: 0 <= i < |nodes| && nodes[i].typ.JoinNode? ==> JoinClosed(nodes, nodes[i]))
  }

  ghost predicate IsBranch(nodes: seq<Node>, b: string) { exists i :: IsFan(nodes, i) && b in nodes[i].branches }

  // ---- The graph ----

  /** Ordinary routing enters no branch, and a join only from its own fan-out. */
  ghost predicate EntryOk(nodes: seq<Node>, byId: Index, n: Node, to: string) {
    && !IsBranch(nodes, to)
    && (to in byId && byId[to].typ.JoinNode? ==> n.typ.FanoutNode? && n.next == to)
  }

  ghost predicate EntriesOk(nodes: seq<Node>, byId: Index) {
    forall i, to | 0 <= i < |nodes| && to in Routes(nodes[i]) :: EntryOk(nodes, byId, nodes[i], to)
  }

  predicate Inbound(nodes: seq<Node>, id: string) { exists i :: 0 <= i < |nodes| && id in Successors(nodes[i]) }

  /** Node s is the start: the one named, or else the only one nothing leads to. */
  ghost predicate StartsAt(nodes: seq<Node>, byId: Index, start: string, s: string) {
    && s in byId
    && (if start != "" then s == start && !IsBranch(nodes, s) && !byId[s].typ.JoinNode?
        else !Inbound(nodes, s) && forall i :: 0 <= i < |nodes| && nodes[i].id != s ==> Inbound(nodes, nodes[i].id))
  }

  predicate LevelOk(src: Source) {
    && src.maxSteps >= 0
    && (forall c | c in src.channels :: Token(c) && Fits(src.channels[c].reducer, src.channels[c].default))
    && (forall k | k in src.budget :: Token(k) && src.budget[k] > 0.0)
  }

  ghost predicate WellFormed(src: Source, s: string) {
    var byId := IndexOf(src.nodes);
    && Token(src.name) && |src.nodes| > 0 && IdsOk(src.nodes) && LevelOk(src)
    && (forall i :: 0 <= i < |src.nodes| ==> NodeShape(byId, src.nodes[i]))
    && FansOk(src.nodes, byId) && EntriesOk(src.nodes, byId)
    && StartsAt(src.nodes, byId, src.start, s)
    && (forall i :: 0 <= i < |src.nodes| ==> Reachable(byId, s, src.nodes[i].id))
  }

  // ---- What the fold relies on ----

  /** branchOf maps every branch to its fan-out. */
  ghost predicate BranchMap(nodes: seq<Node>, branchOf: map<string, string>) {
    && (forall i, b :: IsFan(nodes, i) && b in nodes[i].branches ==> b in branchOf)
    && (forall b | b in branchOf :: exists i :: IsFan(nodes, i) && b in nodes[i].branches && branchOf[b] == nodes[i].id)
  }

  /** joinOf maps every fan-out to its join. */
  ghost predicate JoinMap(nodes: seq<Node>, joinOf: map<string, string>) {
    && (forall i :: IsFan(nodes, i) ==> nodes[i].id in joinOf)
    && (forall fan | fan in joinOf :: exists i :: IsFan(nodes, i) && nodes[i].id == fan && joinOf[fan] == nodes[i].next)
  }

  /** What validation builds from a definition. */
  datatype Indexes = Indexes(byId: Index, start: string, branchOf: map<string, string>, joinOf: map<string, string>)

  function Built(src: Source, x: Indexes): Flow {
    Flow(src.name, src.start, src.nodes, src.channels, src.budget, src.maxSteps, src.output,
         x.byId, x.start, x.branchOf, x.joinOf)
  }

  /** A well-formed definition and its indexes. */
  ghost predicate Accepted(src: Source, x: Indexes) {
    && WellFormed(src, x.start) && x.byId == IndexOf(src.nodes)
    && BranchMap(src.nodes, x.branchOf) && JoinMap(src.nodes, x.joinOf)
  }

  lemma NodeAt(src: Source, x: Indexes, id: string) returns (j: nat)
    requires Accepted(src, x) && id in x.byId
    ensures j < |src.nodes| && src.nodes[j] == x.byId[id] && src.nodes[j].id == id && id != "" && NodeShape(x.byId, src.nodes[j])
  {
    hide IndexOf, FansOk, EntriesOk, StartsAt, Reachable, LevelOk, NodeShape, BranchMap, JoinMap;
    IndexHolds(src.nodes);
    j :| 0 <= j < |src.nodes| && src.nodes[j] == x.byId[id] && src.nodes[j].id == id;
  }

  lemma NodeIs(src: Source, x: Indexes, i: nat)
    requires Accepted(src, x) && i < |src.nodes|
    ensures NodeShape(x.byId, src.nodes[i]) && src.nodes[i].id in x.byId && x.byId[src.nodes[i].id] == src.nodes[i]
  {
    hide IndexOf, FansOk, EntriesOk, StartsAt, Reachable, LevelOk, NodeShape, BranchMap, JoinMap, Token;
    IndexHolds(src.nodes);
  }

  lemma FansOf(src: Source, x: Indexes)
    requires Accepted(src, x)
    ensures FansOk(src.nodes, x.byId) && DistinctIds(src.nodes)
  {
    hide IndexOf, FansOk, EntriesOk, StartsAt, Reachable, LevelOk, NodeShape, BranchMap, JoinMap, Token;
  }

  /** Two fan-outs that share a branch or a join are one. */
  lemma SameFan(nodes: seq<Node>, byId: Index, i: nat, j: nat, b: string)
    requires FansOk(nodes, byId) && IsFan(nodes, i) && IsFan(nodes, j)
    requires nodes[i].next == nodes[j].next || (b in nodes[i].branches && b in nodes[j].branches)
    ensures i == j
  {
    hide FanShape, JoinClosed;
  }

  /** Routing leads only to nodes that can be entered. */
  lemma RoutesEnter(src: Source, x: Indexes, i: nat, to: string)
    requires Accepted(src, x) && i < |src.nodes| && to in Routes(src.nodes[i]) && to in x.byId
    requires !(src.nodes[i].typ.FanoutNode? && to == src.nodes[i].next)
    ensures Enterable(Built(src, x), to)
  {
    var j := NodeAt(src, x, to);
    NotOther(x.byId, src.nodes[j]);
    hide IndexOf, FansOk, StartsAt, Routes, Reachable, LevelOk, JoinMap, NodeShape, Token;
    assert EntryOk(src.nodes, x.byId, src.nodes[i], to);
  }

  lemma NotOther(byId: Index, n: Node)
    requires NodeShape(byId, n)
    ensures !n.typ.OtherNode?
  {
  }

  lemma StartEnters(src: Source, x: Indexes)
    requires Accepted(src, x)
    ensures Enterable(Built(src, x), x.start)
  {
    hide IndexOf, Reachable, LevelOk, EntriesOk, NodeShape, FansOk, BranchMap, JoinMap, Token;
    var j := NodeAt(src, x, x.start);
    NotOther(x.byId, src.nodes[j]);
    if src.start == "" && (x.start in x.branchOf || x.byId[x.start].typ.JoinNode?) { LedInto(src, x, x.start); }
    if src.start != "" && x.start in x.branchOf { BranchIsOne(src, x, x.start); }
  }

  lemma BranchIsOne(src: Source, x: Indexes, b: string)
    requires Accepted(src, x) && b in x.branchOf
    ensures IsBranch(src.nodes, b)
  {
    hide WellFormed, JoinMap, IndexOf;
  }

  /** Something leads to every branch and to every join. */
  lemma LedInto(src: Source, x: Indexes, id: string)
    requires Accepted(src, x) && id in x.byId && (id in x.branchOf || x.byId[id].typ.JoinNode?)
    ensures Inbound(src.nodes, id)
  {
    hide IndexOf, Routes, Reachable, LevelOk, EntriesOk, StartsAt, NodeShape, JoinMap, Token, FanShape, Apart;
    var nodes := src.nodes;
    if id in x.branchOf {
      var i :| IsFan(nodes, i) && id in nodes[i].branches && x.branchOf[id] == nodes[i].id;
      assert id in Successors(nodes[i]);
    } else {
      var j := NodeAt(src, x, id);
      assert JoinClosed(nodes, nodes[j]);
      var i :| IsFan(nodes, i) && JoinFits(nodes[j], nodes[i]);
      NextIsSuccessor(nodes[i]);
    }
  }

  lemma NextIsSuccessor(n: Node)
    ensures n.next != "" ==> n.next in Successors(n)
  {
  }

  /** The fan-out a branch belongs to. */
  lemma FanOf(src: Source, x: Indexes, b: string) returns (i: nat)
    requires Accepted(src, x) && b in x.branchOf
    ensures IsFan(src.nodes, i) && b in src.nodes[i].branches && x.branchOf[b] == src.nodes[i].id
  {
    hide WellFormed, JoinMap, IndexOf;
    i :| IsFan(src.nodes, i) && b in src.nodes[i].branches && x.branchOf[b] == src.nodes[i].id;
  }

  lemma BranchIs(src: Source, x: Indexes, i: nat, b: string)
    requires Accepted(src, x) && IsFan(src.nodes, i) && b in src.nodes[i].branches
    ensures InFan(Built(src, x), src.nodes[i].id, b)
  {
    hide WellFormed, JoinMap, IndexOf, FansOk;
    assert b in x.branchOf;
    var j := FanOf(src, x, b);
    FansOf(src, x);
    SameFan(src.nodes, x.byId, i, j, b);
  }

  lemma FanoutsOk(src: Source, x: Indexes, i: nat)
    requires Accepted(src, x) && IsFan(src.nodes, i)
    ensures FanoutOk(Built(src, x), src.nodes[i])
  {
    hide Accepted, NoForeign, JoinClosed, Apart;
    var nodes := src.nodes;
    var n := nodes[i];
    var f := Built(src, x);
    NodeIs(src, x, i);
    FansOf(src, x);
    assert FanShape(x.byId, n);
    hide FansOk;
    forall k | 0 <= k < |n.branches| ensures BranchOk(f, n.id, n.branches[k]) {
      BranchIs(src, x, i, n.branches[k]);
      assert BranchShape(x.byId, n.branches[k]);
    }
    forall b | b in x.branchOf && x.branchOf[b] == n.id ensures b in n.branches {
      var j := FanOf(src, x, b);
      NodeIs(src, x, j);
    }
    JoinOk(src, x, i);
  }

  lemma JoinOk(src: Source, x: Indexes, i: nat)
    requires Accepted(src, x) && IsFan(src.nodes, i)
    ensures var n := src.nodes[i];
            && n.id in x.joinOf && x.joinOf[n.id] == n.next && n.next in x.byId && x.byId[n.next].typ.JoinNode?
            && (var waits := Awaited(x.byId[n.next], n);
                && Distinct(waits)
                && (forall k :: 0 <= k < |waits| ==> InFan(Built(src, x), n.id, waits[k]))
                && PolicyOk(x.byId[n.next].policy, |waits|))
  {
    hide Accepted, NoForeign, Apart, Token;
    var nodes := src.nodes;
    var n := nodes[i];
    JoinIs(src, x, i);
    FansOf(src, x);
    assert FanShape(x.byId, n);
    var j := NodeAt(src, x, n.next);
    var join := nodes[j];
    assert JoinClosed(nodes, join);
    var y :| IsFan(nodes, y) && JoinFits(join, nodes[y]);
    SameFan(nodes, x.byId, i, y, "");
    hide FansOk;
    var waits := Awaited(join, n);
    forall k | 0 <= k < |waits| ensures InFan(Built(src, x), n.id, waits[k]) {
      BranchIs(src, x, i, waits[k]);
    }
  }

  lemma JoinIs(src: Source, x: Indexes, i: nat)
    requires Accepted(src, x) && IsFan(src.nodes, i)
    ensures src.nodes[i].id in x.joinOf && x.joinOf[src.nodes[i].id] == src.nodes[i].next
  {
    FansOf(src, x);
    hide WellFormed, BranchMap, IndexOf, FansOk;
    var n := src.nodes[i];
    assert n.id in x.joinOf;
    var y :| IsFan(src.nodes, y) && src.nodes[y].id == n.id && x.joinOf[n.id] == src.nodes[y].next;
    assert y == i;
  }

  lemma NodesOk(src: Source, x: Indexes, i: nat)
    requires Accepted(src, x) && i < |src.nodes|
    ensures NodeOk(Built(src, x), src.nodes[i])
  {
    hide Accepted, FanoutOk, Enterable, NodeShape, Routes;
    var n := src.nodes[i];
    var f := Built(src, x);
    NodeIs(src, x, i);
    forall to | to in Routes(n) && to in x.byId && !(n.typ.FanoutNode? && to == n.next) ensures Enterable(f, to) {
      RoutesEnter(src, x, i, to);
    }
    if n.typ.FanoutNode? { FanoutsOk(src, x, i); }
    RoutesOf(x.byId, n);
  }

  /** All the references of a node that is in order resolve, and are among its routes. */
  lemma RoutesOf(byId: Index, n: Node)
    requires NodeShape(byId, n)
    ensures n.next != "" ==> n.next in Routes(n) && n.next in byId
    ensures n.onFailure != "" ==> n.onFailure in Routes(n) && n.onFailure in byId
    ensures n.onTimeout != "" ==> n.onTimeout in Routes(n) && n.onTimeout in byId
    ensures n.typ.FanoutNode? ==> n.onFailure == "" && n.onTimeout == "" && n.dynamic == []
    ensures forall i :: 0 <= i < |n.dynamic| ==> n.dynamic[i] in Routes(n) && n.dynamic[i] in byId
    ensures n.typ.ChoiceNode? ==>
              && (forall i :: 0 <= i < |n.rules| ==> n.rules[i].to == END || (n.rules[i].to in Routes(n) && n.rules[i].to in byId))
              && (exists i :: 0 <= i < |n.rules| && n.rules[i].isDefault)
    ensures n.typ.AwaitNode? ==> n.timeout > 0
    ensures n.typ.SubflowNode? ==> n.flow != ""
  {
    hide RetryOk, TokenChar;
    assert IsSet(n, FOnTimeout) ==> FOnTimeout in Allowed(n.typ);
    assert IsSet(n, FOnFailure) ==> FOnFailure in Allowed(n.typ);
    assert IsSet(n, FDynamic) ==> FDynamic in Allowed(n.typ);
    forall i | 0 <= i < |n.rules| ensures n.rules[i].to == END || n.rules[i].to in Routes(n) {
      RuleTargetsAre(n.rules, n.rules[i].to);
    }
  }

  /** What validation accepts is what the fold relies on. */
  lemma WellFormedIsSound(src: Source, x: Indexes)
    requires Accepted(src, x)
    ensures Sound(Built(src, x))
  {
    assert LevelOk(src);
    hide Accepted, NodeOk, Enterable, NodeShape;
    var f := Built(src, x);
    forall id | Known(f, id) ensures f.byId[id].id == id && NodeOk(f, f.byId[id]) {
      var i := NodeAt(src, x, id);
      NodesOk(src, x, i);
    }
    StartEnters(src, x);
    if "" in x.byId { var i := NodeAt(src, x, ""); }
    forall a, b | a in x.joinOf && b in x.joinOf && x.joinOf[a] == x.joinOf[b] ensures a == b {
      JoinsDiffer(src, x, a, b);
    }
  }

  lemma JoinsDiffer(src: Source, x: Indexes, a: string, b: string)
    requires Accepted(src, x) && a in x.joinOf && b in x.joinOf && x.joinOf[a] == x.joinOf[b]
    ensures a == b
  {
    FansOf(src, x);
    hide WellFormed, BranchMap, IndexOf, FansOk;
    var i :| IsFan(src.nodes, i) && src.nodes[i].id == a && x.joinOf[a] == src.nodes[i].next;
    var j :| IsFan(src.nodes, j) && src.nodes[j].id == b && x.joinOf[b] == src.nodes[j].next;
    SameFan(src.nodes, x.byId, i, j, "");
  }
}
