/** Validation of a flow: every check appends its problems to one list and fills the indexes the engine uses. */
module Validation {
  import opened Values
  import opened Flows
  import opened Graphs

  /** A problem of a node, or of the flow when node is empty. */
  datatype Problem = Problem(node: string, field: string)

  const ALL_FIELDS: set<Field> :=
    {FTimeout, FRetry, FDynamic, FRules, FOnError, FBranches, FWaitFor, FPolicy, FSignal, FOnTimeout, FMaxParallel, FFlow,
     FInput, FAbandon, FNext, FOnFailure}

  /** All that a node refers to, and so all its routes, resolves. */
  lemma RoutesResolve(byId: Index, n: Node)
    requires NodeShape(byId, n)
    ensures forall to | to in Successors(n) :: to in byId
  {
    hide NodeShape, RuleTargets;
    RoutesOf(byId, n);
    RulesResolve(byId, n);
    forall to | to in RuleTargets(n.rules) ensures to in byId { RuleTargetsAre(n.rules, to); }
  }

  lemma RulesResolve(byId: Index, n: Node)
    requires NodeShape(byId, n)
    ensures forall i :: 0 <= i < |n.rules| ==> n.rules[i].to == END || n.rules[i].to in byId
    ensures forall i :: 0 <= i < |n.branches| ==> n.branches[i] in byId
  {
    assert IsSet(n, FRules) ==> FRules in Allowed(n.typ);
    assert IsSet(n, FBranches) ==> FBranches in Allowed(n.typ);
  }

  lemma AnyField(field: Field)
    ensures field in ALL_FIELDS
  {
  }

  class Validator {
    const src: Source
    var byId: Index
    var branchOf: map<string, string>
    var joinOf: map<string, string>
    var startId: string
    var problems: seq<Problem>

    constructor (src: Source)
      ensures this.src == src && problems == []
    {
      this.src := src;
      byId, branchOf, joinOf, startId, problems := map[], map[], map[], "", [];
    }

    method Add(node: string, field: string)
      modifies this`problems
      ensures old(problems) < problems
    {
      problems := problems + [Problem(node, field)];
    }

    // ---- The flow and each node on its own ----

    method IndexNodes()
      modifies this`byId, this`problems
      ensures byId == IndexOf(src.nodes) && old(problems) <= problems
      ensures problems == old(problems) <==> IdsOk(src.nodes)
    {
      hide Token, IndexOf, IdsOk;
      NoneIndexed();
      byId := map[];
      var nodes := src.nodes;
      for i := 0 to |nodes|
        invariant byId == IndexOf(nodes[..i]) && old(problems) <= problems
        invariant problems == old(problems) <==> IdsOk(nodes[..i])
      {
        var n := nodes[i];
        OneMore(nodes, i);
        if !Token(n.id) {
          Add(n.id, "id");
        }
        if n.id in byId {
          Add(n.id, "id");
          continue;
        }
        byId := byId[n.id := n];
      }
      assert nodes[..|nodes|] == nodes;
    }

    method ValidateFlowLevel()
      modifies this`problems
      ensures old(problems) <= problems
      ensures problems == old(problems) <==> LevelOk(src)
    {
      hide Token, Fits;
      if src.maxSteps < 0 {
        Add("", "max_steps");
      }
      var rest := src.channels.Keys;
      while rest != {}
        invariant rest <= src.channels.Keys && old(problems) <= problems
        invariant problems == old(problems) <==>
                  && src.maxSteps >= 0
                  && forall c | c in src.channels && c !in rest :: Token(c) && Fits(src.channels[c].reducer, src.channels[c].default)
      {
        var c :| c in rest;
        rest := rest - {c};
        if !Token(c) {
          Add("", "channels");
        }
        if !Fits(src.channels[c].reducer, src.channels[c].default) {
          Add("", "channels.default");
        }
      }
      var left := src.budget.Keys;
      while left != {}
        invariant left <= src.budget.Keys && old(problems) <= problems
        invariant problems == old(problems) <==>
                  && src.maxSteps >= 0
                  && (forall c | c in src.channels :: Token(c) && Fits(src.channels[c].reducer, src.channels[c].default))
                  && forall k | k in src.budget && k !in left :: Token(k) && src.budget[k] > 0.0
      {
        var k :| k in left;
        left := left - {k};
        if !Token(k) {
          Add("", "budget");
        }
        if src.budget[k] <= 0.0 {
          Add("", "budget");
        }
      }
    }

    method ValidateNodes()
      modifies this`problems
      ensures old(problems) <= problems
      ensures problems == old(problems) <==> forall i :: 0 <= i < |src.nodes| ==> NodeShape(byId, src.nodes[i])
    {
      hide NoForeign, TypeOk, LinkOk;
      for i := 0 to |src.nodes|
        invariant old(problems) <= problems
        invariant problems == old(problems) <==> forall j :: 0 <= j < i ==> NodeShape(byId, src.nodes[j])
      {
        var n := src.nodes[i];
        RejectForeignFields(n);
        ValidateType(n);
        ValidateLink(n, "next", n.next);
        ValidateLink(n, "on_failure", n.onFailure);
      }
    }

    method ValidateLink(n: Node, field: string, to: string)
      modifies this`problems
      ensures old(problems) <= problems
      ensures problems == old(problems) <==> LinkOk(byId, n, to)
    {
      if to != "" {
        if to !in byId {
          Add(n.id, field);
        }
        if to == n.id {
          Add(n.id, field);
        }
      }
    }

    method RejectForeignFields(n: Node)
      modifies this`problems
      ensures old(problems) <= problems
      ensures problems == old(problems) <==> NoForeign(n)
    {
      if n.typ.OtherNode? {
        return;
      }
      var foreign, rest := {}, ALL_FIELDS;
      while rest != {}
        invariant rest <= ALL_FIELDS
        invariant foreign == set field | field in ALL_FIELDS - rest && IsSet(n, field) && field !in Allowed(n.typ)
      {
        var field :| field in rest;
        rest := rest - {field};
        if IsSet(n, field) && field !in Allowed(n.typ) {
          foreign := foreign + {field};
        }
      }
      hide IsSet, Allowed;
      forall field ensures field in ALL_FIELDS { AnyField(field); }
      if foreign != {} {
        Add(n.id, "");
      }
    }

    method RequireRefs(n: Node, field: string, ids: seq<string>)
      modifies this`problems
      ensures old(problems) <= problems
      ensures problems == old(problems) <==> AllRefs(byId, ids)
    {
      for i := 0 to |ids|
        invariant old(problems) <= problems
        invariant problems == old(problems) <==> forall j :: 0 <= j < i ==> Ref(byId, ids[j])
      {
        if !Ref(byId, ids[i]) {
          Add(n.id, field);
        }
      }
    }

    method ValidateType(n: Node)
      modifies this`problems
      ensures old(problems) <= problems
      ensures problems == old(problems) <==> TypeOk(byId, n)
    {
      hide Token, RetryOk, Distinct, AllRefs;
      match n.typ {
        case TaskNode =>
          ValidateAttemptPolicy(n);
          RequireRefs(n, "dynamic", n.dynamic);
        case ChoiceNode => ValidateChoice(n);
        case FanoutNode =>
          if |n.branches| == 0 || |n.branches| > MAX_BRANCHES {
            Add(n.id, "branches");
          }
          RequireRefs(n, "branches", n.branches);
          if n.next == "" {
            Add(n.id, "next");
          }
        case JoinNode => ValidateJoin(n);
        case AwaitNode =>
          if !Token(n.signal) {
            Add(n.id, "signal");
          }
          if n.timeout <= 0 {
            Add(n.id, "timeout");
          }
          if n.onTimeout != "" && n.onTimeout !in byId {
            Add(n.id, "on_timeout");
          }
        case MapNode => ValidateMap(n);
        case SubflowNode =>
          if !Token(n.flow) {
            Add(n.id, "flow");
          }
        case OtherNode => Add(n.id, "type");
      }
    }

    method ValidateAttemptPolicy(n: Node)
      modifies this`problems
      ensures old(problems) <= problems
      ensures problems == old(problems) <==> n.timeout >= 0 && RetryOk(n.retry)
    {
      if n.timeout < 0 {
        Add(n.id, "timeout");
      }
      if n.retry.Some? {
        var r := n.retry.value;
        if r.maxAttempts < 0 || r.maxAttempts > MAX_RETRY_ATTEMPTS {
          Add(n.id, "retry.max_attempts");
        }
        if r.delay < 0 {
          Add(n.id, "retry.delay");
        }
        if r.maxDelay < 0 {
          Add(n.id, "retry.max_delay");
        }
      }
    }

    method ValidateChoice(n: Node)
      requires n.typ.ChoiceNode?
      modifies this`problems
      ensures old(problems) <= problems
      ensures problems == old(problems) <==> TypeOk(byId, n)
    {
      if |n.rules| == 0 {
        Add(n.id, "rules");
      }
      var defaults := 0;
      for i := 0 to |n.rules|
        invariant old(problems) <= problems && defaults == Defaulted(n.rules[..i])
        invariant problems == old(problems) <==>
                  |n.rules| > 0 && forall j :: 0 <= j < i ==> n.rules[j].to == END || Ref(byId, n.rules[j].to)
      {
        assert n.rules[..i + 1][..i] == n.rules[..i];
        if n.rules[i].isDefault {
          defaults := defaults + 1;
        }
        if n.rules[i].to != END && !Ref(byId, n.rules[i].to) {
          Add(n.id, "rules.to");
        }
      }
      assert n.rules[..|n.rules|] == n.rules;
      if |n.rules| > 0 && defaults != 1 {
        Add(n.id, "rules");
      }
    }

    method ValidateJoin(n: Node)
      requires n.typ.JoinNode?
      modifies this`problems
      ensures old(problems) <= problems
      ensures problems == old(problems) <==> TypeOk(byId, n)
    {
      var seen := {};
      for i := 0 to |n.waitFor|
        invariant old(problems) <= problems && seen == set j | 0 <= j < i :: n.waitFor[j]
        invariant problems == old(problems) <==>
                  && (forall j :: 0 <= j < i ==> Ref(byId, n.waitFor[j]))
                  && (forall j, k :: 0 <= j < k < i ==> n.waitFor[j] != n.waitFor[k])
      {
        var w := n.waitFor[i];
        if !Ref(byId, w) {
          Add(n.id, "wait_for");
        }
        if w in seen {
          Add(n.id, "wait_for");
        }
        seen := seen + {w};
      }
      match n.policy {
        case JoinQuorum(q) =>
          if q <= 0 {
            Add(n.id, "policy");
          }
        case JoinMin(q) =>
          if q < 0 {
            Add(n.id, "policy");
          }
        case OtherPolicy => Add(n.id, "policy");
        case _ =>
      }
    }

    method ValidateMap(n: Node)
      requires n.typ.MapNode?
      modifies this`problems
      ensures old(problems) <= problems
      ensures problems == old(problems) <==> TypeOk(byId, n)
    {
      hide Token, RetryOk;
      if n.flow == "" {
        if n.input.Some? || n.abandon {
          Add(n.id, "");
        }
      } else {
        if n.timeout > 0 || n.retry.Some? {
          Add(n.id, "");
        }
        if !Token(n.flow) {
          Add(n.id, "flow");
        }
      }
      if n.maxParallel < 0 || n.maxParallel > MAX_PARALLEL {
        Add(n.id, "max_parallel");
      }
      if n.flow == "" {
        ValidateAttemptPolicy(n);
      }
    }

    // ---- Fan-outs and joins ----

    /** The nodes are in order on their own and indexed. */
    ghost predicate Indexed()
      reads this`byId
    {
      byId == IndexOf(src.nodes) && IdsOk(src.nodes) && forall i :: 0 <= i < |src.nodes| ==> NodeShape(byId, src.nodes[i])
    }

    /** Ties every fan-out to the join that closes it. */
    method ValidateFans()
      requires Indexed()
      modifies this`branchOf, this`joinOf, this`problems
      ensures old(problems) <= problems
      ensures problems == old(problems) <==> FansOk(src.nodes, byId)
      ensures problems == old(problems) ==> BranchMap(src.nodes, branchOf) && JoinMap(src.nodes, joinOf)
    {
      hide FansOk, FansUpTo, NodeShape, IndexOf, BranchesUpTo, JoinsUpTo, JoinsAll, BranchMap, JoinMap;
      branchOf, joinOf := map[], map[];
      NoFansYet(src.nodes, byId);
      for i := 0 to |src.nodes|
        invariant old(problems) <= problems
        invariant BranchesUpTo(src.nodes, i, branchOf) && JoinsUpTo(src.nodes, i, joinOf)
        invariant problems == old(problems) ==> FansUpTo(src.nodes, byId, i) && JoinsAll(src.nodes, i, joinOf)
        invariant problems != old(problems) ==> !FansOk(src.nodes, byId)
      {
        if src.nodes[i].typ.FanoutNode? {
          ValidateFan(i);
          OneMoreFan(src.nodes, byId, i);
        } else {
          SkipsNode(src.nodes, byId, i, branchOf, joinOf);
        }
      }
      AllFansSeen(src.nodes, branchOf, joinOf);
      ValidateJoins();
      FansSeen(src.nodes, byId);
    }

    method ValidateJoins()
      requires Indexed() && JoinsUpTo(src.nodes, |src.nodes|, joinOf)
      modifies this`problems
      ensures old(problems) <= problems
      ensures FansUpTo(src.nodes, byId, |src.nodes|) && JoinsAll(src.nodes, |src.nodes|, joinOf) ==>
                (problems == old(problems) <==> JoinsOk(src.nodes))
    {
      hide FansUpTo, NodeShape, IndexOf, JoinsUpTo, JoinsAll, JoinClosed;
      for i := 0 to |src.nodes|
        invariant old(problems) <= problems
        invariant FansUpTo(src.nodes, byId, |src.nodes|) && JoinsAll(src.nodes, |src.nodes|, joinOf) ==>
                    (problems == old(problems) <==>
                     forall k :: 0 <= k < i && src.nodes[k].typ.JoinNode? ==> JoinClosed(src.nodes, src.nodes[k]))
      {
        if src.nodes[i].typ.JoinNode? {
          ValidateJoinFan(src.nodes[i]);
        }
      }
    }

    method ValidateFan(i: nat)
      requires Indexed() && IsFan(src.nodes, i) && BranchesUpTo(src.nodes, i, branchOf) && JoinsUpTo(src.nodes, i, joinOf)
      modifies this`branchOf, this`joinOf, this`problems
      ensures old(problems) <= problems
      ensures BranchesUpTo(src.nodes, i + 1, branchOf) && JoinsUpTo(src.nodes, i + 1, joinOf)
      ensures problems == old(problems) && JoinsAll(src.nodes, i, old(joinOf)) ==>
                JoinsAll(src.nodes, i + 1, joinOf) && FanShape(byId, src.nodes[i]) && AllApart(src.nodes, i)
      ensures problems != old(problems) ==> !FanShape(byId, src.nodes[i]) || !AllApart(src.nodes, i)
    {
      hide IndexOf, BranchesUpTo, JoinsUpTo, JoinsAll, BranchTaken, FanShape, AllApart, NextDiffers;
      var n := src.nodes[i];
      assert n.next in byId by { NextResolves(byId, n); }
      hide NodeShape;
      FanChecks(src.nodes, byId, i);
      ValidateFanBranches(i);
      var j := byId[n.next];
      JoinNamed(src.nodes, byId, n.next);
      if !j.typ.JoinNode? {
        Add(n.id, "next");
        JoinsMore(src.nodes, i, joinOf);
        return;
      }
      var fan := FanOf(j.id);
      if fan.Some? {
        Add(j.id, "");
        JoinTaken(src.nodes, i, joinOf, fan.value);
        JoinsMore(src.nodes, i, joinOf);
        return;
      }
      FreshJoin(src.nodes, i, joinOf);
      joinOf := joinOf[n.id := j.id];
      JoinAdded(src.nodes, i, old(joinOf), joinOf);
    }

    method ValidateFanBranches(i: nat)
      requires Indexed() && IsFan(src.nodes, i) && BranchesUpTo(src.nodes, i, branchOf)
      modifies this`branchOf, this`problems
      ensures old(problems) <= problems && BranchesUpTo(src.nodes, i + 1, branchOf)
      ensures problems == old(problems) <==> forall k :: 0 <= k < |src.nodes[i].branches| ==> BranchTaken(src.nodes, byId, i, k)
    {
      hide IndexOf, InEarlier, Owned, BranchesUpTo, BranchShape;
      var n := src.nodes[i];
      assert forall k :: 0 <= k < |n.branches| ==> n.branches[k] in byId by { RulesResolve(byId, n); }
      hide NodeShape;
      EarlierSeen(src.nodes, i, branchOf);
      for m := 0 to |n.branches|
        invariant old(problems) <= problems && Owned(src.nodes, i, m, branchOf)
        invariant problems == old(problems) <==> forall k :: 0 <= k < m ==> BranchTaken(src.nodes, byId, i, k)
      {
        ValidateBranch(i, m);
      }
      AllOwned(src.nodes, i, branchOf);
    }

    method ValidateBranch(i: nat, m: nat)
      requires IsFan(src.nodes, i) && m < |src.nodes[i].branches| && Owned(src.nodes, i, m, branchOf) && src.nodes[i].branches[m] in byId
      modifies this`branchOf, this`problems
      ensures old(problems) <= problems && Owned(src.nodes, i, m + 1, branchOf)
      ensures problems == old(problems) <==> BranchTaken(src.nodes, byId, i, m)
    {
      hide Owned, InEarlier;
      var n := src.nodes[i];
      var b := n.branches[m];
      if b in branchOf {
        Add(b, "branches");
        OwnedAgain(src.nodes, i, m, branchOf);
        return;
      }
      OwnedMore(src.nodes, i, m, branchOf);
      branchOf := branchOf[b := n.id];
      var bn := byId[b];
      if !bn.typ.TaskNode? && !bn.typ.SubflowNode? {
        Add(n.id, "branches");
      }
      if bn.onFailure != "" {
        Add(b, "on_failure");
      }
      if bn.next != "" || |bn.dynamic| > 0 {
        Add(b, "");
      }
    }

    /** The fan-out that join closes, if any. */
    method FanOf(join: string) returns (fan: Option<string>)
      ensures fan.Some? ==> fan.value in joinOf && joinOf[fan.value] == join
      ensures fan.None? ==> forall x | x in joinOf :: joinOf[x] != join
    {
      var rest := joinOf.Keys;
      while rest != {}
        invariant rest <= joinOf.Keys
        invariant forall x | x in joinOf && x !in rest :: joinOf[x] != join
      {
        var x :| x in rest;
        if joinOf[x] == join {
          return Some(x);
        }
        rest := rest - {x};
      }
      return None;
    }

    method ValidateJoinFan(n: Node)
      requires Indexed() && JoinsUpTo(src.nodes, |src.nodes|, joinOf)
      modifies this`problems
      ensures old(problems) <= problems
      ensures FansUpTo(src.nodes, byId, |src.nodes|) && JoinsAll(src.nodes, |src.nodes|, joinOf) ==>
                (problems == old(problems) <==> JoinClosed(src.nodes, n))
    {
      hide IndexOf, NodeShape, FanShape, Apart;
      var fan := FanOf(n.id);
      if fan.None? {
        Add(n.id, "");
        NoFanCloses(src.nodes, joinOf, n);
        return;
      }
      ghost var i := ClosingFan(src.nodes, byId, joinOf, fan.value);
      var fn := byId[fan.value];
      for k := 0 to |n.waitFor|
        invariant old(problems) <= problems
        invariant problems == old(problems) <==> forall l :: 0 <= l < k ==> n.waitFor[l] in fn.branches
      {
        if n.waitFor[k] !in fn.branches {
          Add(n.id, "wait_for");
        }
      }
      if (n.policy.JoinQuorum? || n.policy.JoinMin?) && n.policy.count > |Awaited(n, fn)| {
        Add(n.id, "policy");
      }
      assert problems == old(problems) <==> JoinFits(n, fn);
      if FansUpTo(src.nodes, byId, |src.nodes|) { OnlyFan(src.nodes, byId, n, i); }
    }

    // ---- The graph ----

    /** Reports every route that ends at a branch, or at a join that belongs to another node. */
    method RejectBranchEntry()
      requires Indexed()
      modifies this`problems
      ensures old(problems) <= problems
      ensures problems == old(problems) <==>
              forall i :: 0 <= i < |src.nodes| ==> NodeEntries(byId, branchOf, joinOf, src.nodes[i])
    {
      hide NodeShape, IndexOf, NodeEntries;
      for i := 0 to |src.nodes|
        invariant old(problems) <= problems
        invariant problems == old(problems) <==> forall j :: 0 <= j < i ==> NodeEntries(byId, branchOf, joinOf, src.nodes[j])
      {
        RejectEntries(src.nodes[i]);
      }
    }

    method RejectEntries(n: Node)
      requires NodeShape(byId, n)
      modifies this`problems
      ensures old(problems) <= problems
      ensures problems == old(problems) <==> NodeEntries(byId, branchOf, joinOf, n)
    {
      RoutesResolve(byId, n);
      hide NodeShape, Routes;
      var rs := Routes(n);
      for k := 0 to |rs|
        invariant old(problems) <= problems
        invariant problems == old(problems) <==> forall l :: 0 <= l < k ==> MayRoute(byId, branchOf, joinOf, n, rs[l])
      {
        assert rs[k] in Successors(n);
        if rs[k] in branchOf {
          Add(n.id, "next");
          continue;
        }
        if byId[rs[k]].typ.JoinNode? && !(n.id in joinOf && joinOf[n.id] == rs[k]) {
          Add(n.id, "next");
        }
      }
    }

    /** Sets the entry node: the one named, or the only node nothing leads to. */
    method ResolveStart() returns (ok: bool)
      requires Indexed()
      modifies this`startId, this`problems
      ensures old(problems) <= problems && (problems == old(problems) <==> ok)
      ensures ok ==> startId in byId
      ensures BranchMap(src.nodes, branchOf) ==> (ok <==> exists s :: StartsAt(src.nodes, byId, src.start, s))
      ensures BranchMap(src.nodes, branchOf) && ok ==> StartsAt(src.nodes, byId, src.start, startId)
    {
      hide NodeShape, IndexOf, BranchMap, Inbound, IsBranch, DistinctIds;
      BranchesAre(src.nodes, branchOf);
      if src.start != "" {
        if src.start !in byId {
          Add("", "start");
          return false;
        }
        if src.start in branchOf || byId[src.start].typ.JoinNode? {
          Add("", "start");
          return false;
        }
        startId := src.start;
        assert BranchMap(src.nodes, branchOf) ==> StartsAt(src.nodes, byId, src.start, src.start);
        return true;
      }
      var starts := Entrances();
      if |starts| == 1 {
        startId := starts[0];
        OneEntrance(src.nodes, byId, starts);
        return true;
      }
      NotOneEntrance(src.nodes, byId, starts);
      Add("", "start");
      return false;
    }

    /** The nodes nothing leads to, in order. */
    method Entrances() returns (starts: seq<string>)
      ensures starts == NoInbound(src.nodes, src.nodes)
    {
      hide Successors;
      var inbound: map<string, string> := map[];
      for i := 0 to |src.nodes|
        invariant forall id :: id in inbound <==> exists j :: 0 <= j < i && id in Successors(src.nodes[j])
      {
        var to := Successors(src.nodes[i]);
        for k := 0 to |to|
          invariant forall id :: id in inbound <==>
                      (exists j :: 0 <= j < i && id in Successors(src.nodes[j])) || id in to[..k]
        {
          assert to[..k + 1] == to[..k] + [to[k]];
          if to[k] !in inbound {
            inbound := inbound[to[k] := src.nodes[i].id];
          }
        }
        assert to[..|to|] == to;
      }
      starts := [];
      for i := 0 to |src.nodes|
        invariant starts == NoInbound(src.nodes, src.nodes[..i])
      {
        assert src.nodes[..i + 1][..i] == src.nodes[..i];
        if src.nodes[i].id !in inbound {
          starts := starts + [src.nodes[i].id];
        }
      }
      assert src.nodes[..|src.nodes|] == src.nodes;
    }

    /** Refuses nodes no execution can visit: a walk over successors from the start. */
    method RejectUnreachable()
      requires Indexed() && startId in byId
      modifies this`problems
      ensures old(problems) <= problems
      ensures problems == old(problems) <==> forall i :: 0 <= i < |src.nodes| ==> Reachable(byId, startId, src.nodes[i].id)
    {
      hide NodeShape, IndexOf, Reachable;
      var seen := Walk();
      for i := 0 to |src.nodes|
        invariant old(problems) <= problems
        invariant problems == old(problems) <==> forall j :: 0 <= j < i ==> src.nodes[j].id in seen
      {
        if src.nodes[i].id !in seen {
          Add(src.nodes[i].id, "");
        }
      }
    }

    /** All nodes reachable from the start, by a stack of nodes whose successors are still to be followed. */
    method Walk() returns (seen: set<string>)
      requires Indexed() && startId in byId
      ensures forall id :: id in seen <==> Reachable(byId, startId, id)
    {
      hide NodeShape, IndexOf, Reachable, Successors;
      seen := {startId};
      var stack := [startId];
      ReachesSelf(byId, startId);
      while |stack| > 0
        invariant startId in seen && seen <= byId.Keys && forall id | id in seen :: Reachable(byId, startId, id)
        invariant forall k :: 0 <= k < |stack| ==> stack[k] in seen
        invariant forall x, y | x in seen && x !in stack && x in byId && y in Successors(byId[x]) :: y in seen
        decreases byId.Keys - seen, |stack|
      {
        var id := stack[|stack| - 1];
        ghost var seen0, stack0 := seen, stack;
        stack := stack[..|stack| - 1];
        assert forall x | x in stack0 :: x == id || x in stack;
        SuccessorsResolve(src.nodes, byId, id);
        var to := Successors(byId[id]);
        for k := 0 to |to|
          invariant seen0 <= seen <= byId.Keys && (forall id | id in seen :: Reachable(byId, startId, id))
          invariant (forall k :: 0 <= k < |stack| ==> stack[k] in seen) && (seen == seen0 ==> stack == stack0[..|stack0| - 1])
          invariant forall x | x in seen && x !in seen0 :: x in stack
          invariant forall x | x in stack0 && x != id :: x in stack
          invariant forall l :: 0 <= l < k ==> to[l] in seen
        {
          if to[k] !in seen {
            ReachesNext(byId, startId, id, to[k]);
            seen := seen + {to[k]};
            stack := stack + [to[k]];
          }
        }
      }
      forall id | Reachable(byId, startId, id) ensures id in seen { ClosedHolds(byId, seen, startId, id); }
    }

    /** Checks the flow and builds its indexes. It is accepted exactly when it is well formed, and then it is sound. */
    method Validate() returns (ok: bool)
      requires problems == []
      modifies this
      ensures ok <==> exists s :: WellFormed(src, s)
      ensures ok ==> Accepted(src, Indexes(byId, startId, branchOf, joinOf)) && Sound(Built(src, Indexes(byId, startId, branchOf, joinOf)))
    {
      hide Token, IndexOf, DistinctIds, LevelOk, NodeShape, FansOk, StartsAt, Reachable, BranchMap, JoinMap, NodeEntries, EntriesOk, Sound;
      if !Token(src.name) {
        Add("", "name");
      }
      if |src.nodes| == 0 {
        Add("", "nodes");
        return false;
      }
      IndexNodes();
      ValidateFlowLevel();
      ValidateNodes();
      if |problems| > 0 {
        return false;
      }
      ValidateFans();
      if problems == [] { EntriesAre(src.nodes, byId, branchOf, joinOf); }
      RejectBranchEntry();
      var started := ResolveStart();
      if started {
        RejectUnreachable();
        StartIsOne(src.nodes, byId, src.start, startId);
      }
      ok := problems == [];
      if s :| WellFormed(src, s) {
        assert StartsAt(src.nodes, byId, src.start, s) && FansOk(src.nodes, byId) && EntriesOk(src.nodes, byId);
        assert started && s == startId;
        assert forall i :: 0 <= i < |src.nodes| ==> Reachable(byId, startId, src.nodes[i].id);
      }
      if ok { WellFormedIsSound(src, Indexes(byId, startId, branchOf, joinOf)); }
    }
  }

  // ---- Entries and starts ----

  predicate MayRoute(byId: Index, branchOf: map<string, string>, joinOf: map<string, string>, n: Node, to: string) {
    to !in branchOf && (to in byId && byId[to].typ.JoinNode? ==> n.id in joinOf && joinOf[n.id] == to)
  }

  predicate NodeEntries(byId: Index, branchOf: map<string, string>, joinOf: map<string, string>, n: Node) {
    forall l :: 0 <= l < |Routes(n)| ==> MayRoute(byId, branchOf, joinOf, n, Routes(n)[l])
  }

  /** Of the given nodes those no node leads to. */
  function NoInbound(nodes: seq<Node>, part: seq<Node>): seq<string> {
    if |part| == 0 then []
    else
      var n := part[|part| - 1];
      NoInbound(nodes, part[..|part| - 1]) + (if Inbound(nodes, n.id) then [] else [n.id])
  }

  // ---- Fan-outs seen so far ----

  predicate FanBefore(nodes: seq<Node>, k: int, i: int) { k < i && IsFan(nodes, k) }

  ghost predicate InEarlier(nodes: seq<Node>, i: int, b: string) {
    exists k :: FanBefore(nodes, k, i) && b in nodes[k].branches
  }

  /** branchOf holds exactly the branches of the fan-outs before i, each with one it belongs to. */
  ghost predicate BranchesUpTo(nodes: seq<Node>, i: int, branchOf: map<string, string>) {
    && (forall k, b :: FanBefore(nodes, k, i) && b in nodes[k].branches ==> b in branchOf)
    && (forall b | b in branchOf ::
          exists k :: FanBefore(nodes, k, i) && b in nodes[k].branches && branchOf[b] == nodes[k].id)
  }

  /** joinOf holds joins of fan-outs before i. */
  ghost predicate JoinsUpTo(nodes: seq<Node>, i: int, joinOf: map<string, string>) {
    forall fan | fan in joinOf :: exists k :: FanBefore(nodes, k, i) && nodes[k].id == fan && joinOf[fan] == nodes[k].next
  }

  ghost predicate JoinsAll(nodes: seq<Node>, i: int, joinOf: map<string, string>) {
    forall k :: FanBefore(nodes, k, i) ==> nodes[k].id in joinOf
  }

  ghost predicate FansUpTo(nodes: seq<Node>, byId: Index, i: int) {
    && (forall k :: FanBefore(nodes, k, i) ==> FanShape(byId, nodes[k]))
    && (forall k, l :: FanBefore(nodes, k, i) && FanBefore(nodes, l, i) && k < l ==> Apart(nodes[k], nodes[l]))
  }

  ghost predicate AllApart(nodes: seq<Node>, i: nat)
    requires i < |nodes|
  {
    forall k :: FanBefore(nodes, k, i) ==> Apart(nodes[k], nodes[i])
  }

  /** branchOf holds the branches of the fan-outs before i and the first m branches of fan-out i. */
  ghost predicate Owned(nodes: seq<Node>, i: nat, m: nat, branchOf: map<string, string>)
    requires i < |nodes| && m <= |nodes[i].branches|
  {
    && (forall b :: InEarlier(nodes, i, b) ==> b in branchOf)
    && (forall l :: 0 <= l < m ==> nodes[i].branches[l] in branchOf)
    && (forall b | b in branchOf ::
          || (exists k :: FanBefore(nodes, k, i) && b in nodes[k].branches && branchOf[b] == nodes[k].id)
          || (branchOf[b] == nodes[i].id && exists l :: 0 <= l < m && nodes[i].branches[l] == b))
  }

  lemma OneMore(nodes: seq<Node>, i: nat)
    requires i < |nodes|
    ensures IdsOk(nodes[..i + 1]) <==> IdsOk(nodes[..i]) && Token(nodes[i].id) && nodes[i].id !in IndexOf(nodes[..i])
    ensures var ix := IndexOf(nodes[..i]);
            IndexOf(nodes[..i + 1]) == if nodes[i].id in ix then ix else ix[nodes[i].id := nodes[i]]
  {
    hide Token;
    var a, b := nodes[..i], nodes[..i + 1];
    assert b[..i] == a && b[i] == nodes[i];
    hide IndexOf;
    if nodes[i].id in IndexOf(a) {
      var j := EntryOf(a, nodes[i].id);
      assert b[j].id == b[i].id;
    } else {
      forall j | 0 <= j < i ensures b[j].id != b[i].id { NodeIndexed(a, j); }
    }
    assert forall j :: 0 <= j < i ==> b[j] == a[j];
  }

  lemma NoneIndexed()
    ensures IndexOf([]) == map[] && IdsOk([])
  {
  }

  /** Branch m of fan-out i has the shape of a branch, and belongs to no earlier fan-out and to no earlier place. */
  ghost predicate BranchTaken(nodes: seq<Node>, byId: Index, i: nat, m: nat)
    requires i < |nodes| && m < |nodes[i].branches|
  {
    var b := nodes[i].branches[m];
    && BranchShape(byId, b) && !InEarlier(nodes, i, b)
    && forall l :: 0 <= l < m ==> nodes[i].branches[l] != b
  }

  ghost predicate JoinsOk(nodes: seq<Node>) {
    forall k :: 0 <= k < |nodes| && nodes[k].typ.JoinNode? ==> JoinClosed(nodes, nodes[k])
  }

  lemma OneMoreFan(nodes: seq<Node>, byId: Index, i: nat)
    requires IsFan(nodes, i)
    ensures FansUpTo(nodes, byId, i) && FanShape(byId, nodes[i]) && AllApart(nodes, i) ==> FansUpTo(nodes, byId, i + 1)
    ensures FansOk(nodes, byId) ==> FanShape(byId, nodes[i]) && AllApart(nodes, i)
  {
    hide FanShape, Apart, JoinClosed;
    assert forall k :: FanBefore(nodes, k, i + 1) ==> k == i || FanBefore(nodes, k, i);
  }

  lemma FansSeen(nodes: seq<Node>, byId: Index)
    ensures FansOk(nodes, byId) <==> FansUpTo(nodes, byId, |nodes|) && JoinsOk(nodes)
  {
    hide FanShape, Apart, JoinClosed;
    assert forall k :: FanBefore(nodes, k, |nodes|) <==> IsFan(nodes, k);
  }

  lemma NoFansYet(nodes: seq<Node>, byId: Index)
    ensures BranchesUpTo(nodes, 0, map[]) && JoinsUpTo(nodes, 0, map[]) && JoinsAll(nodes, 0, map[]) && FansUpTo(nodes, byId, 0)
  {
  }

  /** A node that is no fan-out changes nothing. */
  lemma SkipsNode(nodes: seq<Node>, byId: Index, i: nat, branchOf: map<string, string>, joinOf: map<string, string>)
    requires i < |nodes| && !nodes[i].typ.FanoutNode? && BranchesUpTo(nodes, i, branchOf) && JoinsUpTo(nodes, i, joinOf)
    ensures BranchesUpTo(nodes, i + 1, branchOf) && JoinsUpTo(nodes, i + 1, joinOf)
    ensures JoinsAll(nodes, i, joinOf) ==> JoinsAll(nodes, i + 1, joinOf)
    ensures FansUpTo(nodes, byId, i) ==> FansUpTo(nodes, byId, i + 1)
  {
    hide FanShape, Apart;
    assert forall k :: FanBefore(nodes, k, i + 1) <==> FanBefore(nodes, k, i);
  }

  lemma AllFansSeen(nodes: seq<Node>, branchOf: map<string, string>, joinOf: map<string, string>)
    requires BranchesUpTo(nodes, |nodes|, branchOf) && JoinsUpTo(nodes, |nodes|, joinOf)
    ensures BranchMap(nodes, branchOf) && (JoinsAll(nodes, |nodes|, joinOf) ==> JoinMap(nodes, joinOf))
  {
    assert forall k :: FanBefore(nodes, k, |nodes|) <==> IsFan(nodes, k);
  }

  lemma NextResolves(byId: Index, n: Node)
    requires NodeShape(byId, n) && n.typ.FanoutNode?
    ensures n.next in byId
  {
  }

  lemma JoinNamed(nodes: seq<Node>, byId: Index, id: string)
    requires byId == IndexOf(nodes) && id in byId
    ensures byId[id].id == id
  {
    IndexHolds(nodes);
    hide IndexOf;
  }

  lemma JoinsMore(nodes: seq<Node>, i: nat, joinOf: map<string, string>)
    requires i < |nodes| && JoinsUpTo(nodes, i, joinOf)
    ensures JoinsUpTo(nodes, i + 1, joinOf)
  {
    forall fan | fan in joinOf
      ensures exists k :: FanBefore(nodes, k, i + 1) && nodes[k].id == fan && joinOf[fan] == nodes[k].next
    {
      var k :| FanBefore(nodes, k, i) && nodes[k].id == fan && joinOf[fan] == nodes[k].next;
      assert FanBefore(nodes, k, i + 1);
    }
  }

  ghost predicate NextDiffers(nodes: seq<Node>, i: nat)
    requires i < |nodes|
  {
    forall k :: FanBefore(nodes, k, i) ==> nodes[k].next != nodes[i].next
  }

  /** What validation checks of a fan-out is its shape, and that it shares nothing with an earlier one. */
  lemma FanChecks(nodes: seq<Node>, byId: Index, i: nat)
    requires IsFan(nodes, i) && nodes[i].next in byId
    ensures FanShape(byId, nodes[i]) && AllApart(nodes, i)
       <==> && (forall k :: 0 <= k < |nodes[i].branches| ==> BranchTaken(nodes, byId, i, k))
            && byId[nodes[i].next].typ.JoinNode? && NextDiffers(nodes, i)
  {
    hide BranchShape;
    var n := nodes[i];
    if FanShape(byId, n) && AllApart(nodes, i) {
      forall k | 0 <= k < |n.branches| ensures BranchTaken(nodes, byId, i, k) {
        forall l | FanBefore(nodes, l, i) ensures n.branches[k] !in nodes[l].branches { assert Apart(nodes[l], n); }
      }
    }
    if (forall k :: 0 <= k < |n.branches| ==> BranchTaken(nodes, byId, i, k)) && NextDiffers(nodes, i) {
      forall l | FanBefore(nodes, l, i) ensures Apart(nodes[l], n) {
        forall x | x in nodes[l].branches ensures x !in n.branches {
          assert InEarlier(nodes, i, x);
          forall k | 0 <= k < |n.branches| ensures n.branches[k] != x { assert BranchTaken(nodes, byId, i, k); }
        }
      }
      forall k, l | 0 <= k < l < |n.branches| ensures n.branches[k] != n.branches[l] { assert BranchTaken(nodes, byId, i, l); }
      forall k | 0 <= k < |n.branches| ensures BranchShape(byId, n.branches[k]) { assert BranchTaken(nodes, byId, i, k); }
    }
  }

  lemma JoinTaken(nodes: seq<Node>, i: nat, joinOf: map<string, string>, fan: string)
    requires i < |nodes| && JoinsUpTo(nodes, i, joinOf) && fan in joinOf && joinOf[fan] == nodes[i].next
    ensures !NextDiffers(nodes, i)
  {
    var k :| FanBefore(nodes, k, i) && nodes[k].id == fan && joinOf[fan] == nodes[k].next;
  }

  /** No earlier fan-out has the join of fan-out i, once all of them are in joinOf and none leads there. */
  lemma FreshJoin(nodes: seq<Node>, i: nat, joinOf: map<string, string>)
    requires i < |nodes| && JoinsUpTo(nodes, i, joinOf) && DistinctIds(nodes) && forall x | x in joinOf :: joinOf[x] != nodes[i].next
    ensures JoinsAll(nodes, i, joinOf) ==> NextDiffers(nodes, i)
  {
    if JoinsAll(nodes, i, joinOf) {
      forall k | FanBefore(nodes, k, i) ensures nodes[k].next != nodes[i].next {
        var l :| FanBefore(nodes, l, i) && nodes[l].id == nodes[k].id && joinOf[nodes[k].id] == nodes[l].next;
        assert l == k;
      }
    }
  }

  lemma JoinAdded(nodes: seq<Node>, i: nat, joinOf: map<string, string>, joinOf': map<string, string>)
    requires IsFan(nodes, i) && JoinsUpTo(nodes, i, joinOf) && joinOf' == joinOf[nodes[i].id := nodes[i].next]
    ensures JoinsUpTo(nodes, i + 1, joinOf')
    ensures JoinsAll(nodes, i, joinOf) ==> JoinsAll(nodes, i + 1, joinOf')
  {
    JoinsMore(nodes, i, joinOf);
    assert FanBefore(nodes, i, i + 1);
    assert forall k :: FanBefore(nodes, k, i + 1) ==> k == i || FanBefore(nodes, k, i);
  }

  lemma EarlierSeen(nodes: seq<Node>, i: nat, branchOf: map<string, string>)
    requires i < |nodes| && BranchesUpTo(nodes, i, branchOf)
    ensures Owned(nodes, i, 0, branchOf)
  {
  }

  /** A branch already in branchOf belongs to an earlier fan-out, or is listed twice. */
  lemma OwnedAgain(nodes: seq<Node>, i: nat, m: nat, branchOf: map<string, string>)
    requires i < |nodes| && m < |nodes[i].branches| && Owned(nodes, i, m, branchOf) && nodes[i].branches[m] in branchOf
    ensures Owned(nodes, i, m + 1, branchOf)
    ensures InEarlier(nodes, i, nodes[i].branches[m]) || exists l :: 0 <= l < m && nodes[i].branches[l] == nodes[i].branches[m]
  {
  }

  lemma OwnedMore(nodes: seq<Node>, i: nat, m: nat, branchOf: map<string, string>)
    requires i < |nodes| && m < |nodes[i].branches| && Owned(nodes, i, m, branchOf) && nodes[i].branches[m] !in branchOf
    ensures Owned(nodes, i, m + 1, branchOf[nodes[i].branches[m] := nodes[i].id])
    ensures !InEarlier(nodes, i, nodes[i].branches[m])
    ensures forall l :: 0 <= l < m ==> nodes[i].branches[l] != nodes[i].branches[m]
  {
    hide InEarlier;
  }

  lemma AllOwned(nodes: seq<Node>, i: nat, branchOf: map<string, string>)
    requires IsFan(nodes, i) && Owned(nodes, i, |nodes[i].branches|, branchOf)
    ensures BranchesUpTo(nodes, i + 1, branchOf)
  {
    assert FanBefore(nodes, i, i + 1);
    forall k, b | FanBefore(nodes, k, i + 1) && b in nodes[k].branches ensures b in branchOf {
      if k < i { assert FanBefore(nodes, k, i); assert InEarlier(nodes, i, b); }
    }
    forall b | b in branchOf
      ensures exists k :: FanBefore(nodes, k, i + 1) && b in nodes[k].branches && branchOf[b] == nodes[k].id
    {
      if k :| FanBefore(nodes, k, i) && b in nodes[k].branches && branchOf[b] == nodes[k].id {
        assert FanBefore(nodes, k, i + 1);
      }
    }
  }

  lemma NoFanCloses(nodes: seq<Node>, joinOf: map<string, string>, n: Node)
    requires JoinsUpTo(nodes, |nodes|, joinOf) && DistinctIds(nodes) && forall x | x in joinOf :: joinOf[x] != n.id
    ensures JoinsAll(nodes, |nodes|, joinOf) ==> !JoinClosed(nodes, n)
  {
    if JoinsAll(nodes, |nodes|, joinOf) {
      forall i | IsFan(nodes, i) ensures nodes[i].next != n.id {
        assert FanBefore(nodes, i, |nodes|);
        var l :| FanBefore(nodes, l, |nodes|) && nodes[l].id == nodes[i].id && joinOf[nodes[i].id] == nodes[l].next;
        assert l == i;
      }
    }
  }

  lemma ClosingFan(nodes: seq<Node>, byId: Index, joinOf: map<string, string>, fan: string) returns (i: nat)
    requires JoinsUpTo(nodes, |nodes|, joinOf) && byId == IndexOf(nodes) && DistinctIds(nodes) && fan in joinOf
    ensures IsFan(nodes, i) && fan in byId && byId[fan] == nodes[i] && nodes[i].next == joinOf[fan]
  {
    IndexHolds(nodes);
    hide IndexOf;
    i :| FanBefore(nodes, i, |nodes|) && nodes[i].id == fan && joinOf[fan] == nodes[i].next;
  }

  lemma OnlyFan(nodes: seq<Node>, byId: Index, n: Node, i: nat)
    requires FansUpTo(nodes, byId, |nodes|) && IsFan(nodes, i) && nodes[i].next == n.id
    ensures JoinClosed(nodes, n) <==> JoinFits(n, nodes[i])
  {
    hide FanShape;
    forall k | IsFan(nodes, k) && nodes[k].next == n.id ensures k == i {
      assert FanBefore(nodes, k, |nodes|) && FanBefore(nodes, i, |nodes|);
    }
  }

  lemma BranchesAre(nodes: seq<Node>, branchOf: map<string, string>)
    ensures BranchMap(nodes, branchOf) ==> forall b :: b in branchOf <==> IsBranch(nodes, b)
  {
  }

  /** The checks against the indexes are the checks against the definition. */
  lemma EntriesAre(nodes: seq<Node>, byId: Index, branchOf: map<string, string>, joinOf: map<string, string>)
    requires DistinctIds(nodes) && BranchMap(nodes, branchOf) && JoinMap(nodes, joinOf)
    ensures (forall i :: 0 <= i < |nodes| ==> NodeEntries(byId, branchOf, joinOf, nodes[i])) <==> EntriesOk(nodes, byId)
  {
    hide Routes, IsBranch, BranchMap;
    BranchesAre(nodes, branchOf);
    forall i, to | 0 <= i < |nodes|
      ensures MayRoute(byId, branchOf, joinOf, nodes[i], to) <==> EntryOk(nodes, byId, nodes[i], to)
    {
      OwnJoin(nodes, joinOf, i, to);
    }
    hide JoinMap;
    forall i | 0 <= i < |nodes|
      ensures NodeEntries(byId, branchOf, joinOf, nodes[i])
         <==> forall to | to in Routes(nodes[i]) :: EntryOk(nodes, byId, nodes[i], to)
    {
      var rs := Routes(nodes[i]);
      forall l | 0 <= l < |rs| ensures rs[l] in rs {}
    }
  }

  lemma OwnJoin(nodes: seq<Node>, joinOf: map<string, string>, i: nat, to: string)
    requires DistinctIds(nodes) && JoinMap(nodes, joinOf) && i < |nodes|
    ensures nodes[i].id in joinOf && joinOf[nodes[i].id] == to <==> nodes[i].typ.FanoutNode? && nodes[i].next == to
  {
    if nodes[i].id in joinOf {
      var k :| IsFan(nodes, k) && nodes[k].id == nodes[i].id && joinOf[nodes[i].id] == nodes[k].next;
      assert k == i;
    } else {
      assert !IsFan(nodes, i);
    }
  }

  lemma {:induction false} NoInboundAre(nodes: seq<Node>, part: seq<Node>, id: string)
    ensures id in NoInbound(nodes, part) <==> !Inbound(nodes, id) && exists i :: 0 <= i < |part| && part[i].id == id
    decreases |part|
  {
    hide Inbound;
    if |part| > 0 {
      var last := |part| - 1;
      NoInboundAre(nodes, part[..last], id);
      assert part == part[..last] + [part[last]];
      if i :| 0 <= i < last && part[..last][i].id == id { assert part[i].id == id; }
      if i :| 0 <= i < last && part[i].id == id { assert part[..last][i].id == id; }
    }
  }

  lemma OneEntrance(nodes: seq<Node>, byId: Index, starts: seq<string>)
    requires byId == IndexOf(nodes) && starts == NoInbound(nodes, nodes) && |starts| == 1
    ensures StartsAt(nodes, byId, "", starts[0])
  {
    hide IndexOf, Inbound, NoInbound;
    IndexHolds(nodes);
    NoInboundAre(nodes, nodes, starts[0]);
    forall i | 0 <= i < |nodes| && nodes[i].id != starts[0] ensures Inbound(nodes, nodes[i].id) {
      NoInboundAre(nodes, nodes, nodes[i].id);
    }
  }

  lemma NotOneEntrance(nodes: seq<Node>, byId: Index, starts: seq<string>)
    requires byId == IndexOf(nodes) && DistinctIds(nodes) && starts == NoInbound(nodes, nodes) && |starts| != 1
    ensures forall s :: !StartsAt(nodes, byId, "", s)
  {
    hide IndexOf, Inbound;
    IndexHolds(nodes);
    forall s | StartsAt(nodes, byId, "", s) ensures false {
      var i :| 0 <= i < |nodes| && nodes[i] == byId[s] && nodes[i].id == s;
      LoneEntrance(nodes, nodes, i);
    }
  }

  lemma {:induction false} LoneEntrance(nodes: seq<Node>, part: seq<Node>, i: nat)
    requires DistinctIds(part) && i < |part| && !Inbound(nodes, part[i].id)
    requires forall j :: 0 <= j < |part| && part[j].id != part[i].id ==> Inbound(nodes, part[j].id)
    ensures |NoInbound(nodes, part)| == 1
    decreases |part|
  {
    hide Inbound;
    var last := |part| - 1;
    var rest := part[..last];
    assert forall j :: 0 <= j < last ==> rest[j] == part[j];
    if i < last { LoneEntrance(nodes, rest, i); } else { NoEntrance(nodes, rest); }
  }

  lemma {:induction false} NoEntrance(nodes: seq<Node>, part: seq<Node>)
    requires forall j :: 0 <= j < |part| ==> Inbound(nodes, part[j].id)
    ensures NoInbound(nodes, part) == []
    decreases |part|
  {
    hide Inbound;
    if |part| > 0 { NoEntrance(nodes, part[..|part| - 1]); }
  }

  lemma SuccessorsResolve(nodes: seq<Node>, byId: Index, id: string)
    requires byId == IndexOf(nodes) && id in byId && forall i :: 0 <= i < |nodes| ==> NodeShape(byId, nodes[i])
    ensures forall to | to in Successors(byId[id]) :: to in byId
  {
    hide IndexOf, NodeShape, Successors;
    IndexHolds(nodes);
    RoutesResolve(byId, byId[id]);
  }

  /** There is one start at most. */
  lemma StartIsOne(nodes: seq<Node>, byId: Index, start: string, s: string)
    requires byId == IndexOf(nodes) && DistinctIds(nodes)
    ensures StartsAt(nodes, byId, start, s) ==> forall t | StartsAt(nodes, byId, start, t) :: t == s
  {
    hide IndexOf, Inbound, IsBranch;
    IndexHolds(nodes);
  }
}
