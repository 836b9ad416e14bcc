/** The decider: one object per decision, whose methods extend a list of events and keep the state their fold. */
module Deciders {
  import opened Values
  import opened Flows
  import opened Fold
  import opened Invariants
  import opened Guards
  import opened ControlSteps
  import opened Outcomes
  import opened Forks
  import opened Commands

  class Decider {
    const def: SoundFlow
    const now: int
    const cmdId: string
    ghost const st0: State
    var st: State
    var out: seq<Event>

    /** Ids in the state that belong to the source of a fork; empty in any other decision. */
    var inherited: set<ChildId>

    /** The events so far are legal from the initial state, fold to the current one, and have one cause. */
    ghost predicate Valid()
      reads this`st, this`out
    {
      Legal(def, st0, out) && FoldAll(def, st0, out) == Some(st) && OneCause(out)
    }

    /** The children not started by this execution are the inherited ones. */
    ghost predicate Kids()
      reads this
    {
      && (forall id | id in inherited :: id.parent != st.exec)
      && forall k | k in st.ctl.children :: st.ctl.children[k].id.parent == st.exec <==> st.ctl.children[k].id !in inherited
    }

    /** The last event is b. */
    ghost predicate Last(b: Body)
      reads this
    {
      |out| > 0 && out[|out| - 1].body == b
    }

    /** The first event after those in before is b. */
    ghost predicate First(before: seq<Event>, b: Body)
      reads this
    {
      |before| < |out| && before <= out && out[|before|].body == b
    }

    /** Event b may come next: it records nothing from outside, or is the first to, or belongs to the first. */
    ghost predicate Fits(b: Body)
      reads this
    {
      !External(b) || out == [] || (|out| == 1 && Belongs(out[0].body, b))
    }

    /** An attempt may fail for this reason now: as the first event, or because its timeout fired. */
    ghost predicate Causes(reason: Reason)
      reads this
    {
      out == [] || (reason == ReasonTimeout && |out| == 1 && out[0].body.OfWait? && out[0].body.wait.TimerFired?)
    }

    /** Some event after those in before is b. */
    ghost predicate Has(before: seq<Event>, b: Body)
      reads this
    {
      exists i :: |before| <= i < |out| && out[i].body == b
    }

    /** The execution that was in state s completed with the output of its flow, or failed for want of one. */
    ghost predicate Completes(s: State)
      reads this
    {
      if FlowOutput(def, s).Some? then st.phase.Completed? && Some(st.output) == FlowOutput(def, s) else FailedOf(ReasonExpression)
    }

    /** The first event after those in before enters node id, unless the limit of node entries was reached in state s. */
    ghost predicate Visits(s: State, before: seq<Event>, id: string)
      reads this
    {
      if s.data.steps + 1 > MaxSteps(def) then FailedOf(ReasonMaxSteps) else First(before, OfLife(Entered(id)))
    }

    ghost predicate FailedOf(reason: Reason)
      reads this
    {
      st.phase.ExecFailed? && st.reason == Some(reason)
    }

    /** After the events in before the execution went on at node to, or completed when to is empty. */
    ghost predicate GoesOn(before: seq<Event>, to: string)
      reads this
    {
      if to == "" then st.phase.Completed? || FailedOf(ReasonExpression)
      else Has(before, OfLife(Entered(to))) || FailedOf(ReasonMaxSteps)
    }

    /** After the events in before the join of fan-out fan settled as ok with the given branches. */
    ghost predicate Joined(before: seq<Event>, fan: string, succeeded: seq<string>, ok: bool)
      reads this
    {
      exists i :: |before| <= i < |out| && JoinsAs(out[i].body, fan, succeeded, ok)
    }

    /** The last event leads to node to, or, when to is empty, to completion. */
    ghost predicate Led(to: string)
      reads this
    {
      LedTo(def, out, to)
    }

    /** The last event is one the execution fails of, at node for this reason. */
    ghost predicate Doomed(reason: Reason, node: string)
      reads this
    {
      |out| > 0 && DeadEnd(def, out[|out| - 1].body, reason, node)
    }

    /** Bounds the nodes a decision may still enter. */
    ghost function Fuel(): nat
      reads this
    {
      if st.data.steps < MaxSteps(def) then MaxSteps(def) - st.data.steps else 0
    }

    constructor (def: SoundFlow, st: State, now: int, cmdId: string)
      ensures Valid() && this.def == def && this.st0 == st && this.st == st && this.now == now && this.cmdId == cmdId
      ensures this.out == [] && this.inherited == {}
    {
      this.def, this.st0, this.st, this.now, this.cmdId := def, st, st, now, cmdId;
      this.out, this.inherited := [], {};
    }

    // ---- Emitting ----

    method Emit(b: Body)
      requires Valid() && Guard(def, st, b) && Follows(def, out, st, b) && Timely(def, now, b) && Fits(b)
      modifies this`st, this`out
      ensures Valid() && old(out) < out && |out| == |old(out)| + 1 && Last(b) && First(old(out), b)
      ensures st == After(def, old(st), b, now) && out[|old(out)|].index == ExpectedIndex(old(st), b)
    {
      hide Guard, Follows, Timely, Foldable, BodyStep;
      GuardFoldable(def, st, b);
      var ev := Stamp(st, b, now, cmdId);
      LegalSnoc(def, st0, out, st, ev);
      st := Apply(def, st, ev).value;
      out := out + [ev];
    }

    method EmitNode(e: NodeEvent)
      requires Valid() && Running(st) && NodeGuard(def, st, e) && Fits(OfNode(e))
      modifies this`st, this`out
      ensures Valid() && old(out) < out && Running(st) && Last(OfNode(e)) && First(old(out), OfNode(e))
      ensures st == old(st).(ctl := NodeControl(old(st).ctl, e), data := NodeData(def, old(st).data, old(st).ctl, e, now),
                             book := NextBook(old(st).book))
    {
      hide Valid, NodeGuard, NodeControl, NodeData;
      Emit(OfNode(e));
    }

    method EmitGraph(e: GraphEvent)
      requires Valid() && Running(st) && GraphGuard(def, st, e)
      modifies this`st, this`out
      ensures Valid() && old(out) < out && Running(st) && Last(OfGraph(e)) && First(old(out), OfGraph(e))
      ensures st == old(st).(ctl := GraphControl(old(st).ctl, e), data := GraphData(old(st).data, old(st).ctl, e),
                             book := NextBook(old(st).book))
    {
      hide Valid, GraphGuard, GraphControl, GraphData;
      Emit(OfGraph(e));
    }

    method EmitWait(e: WaitEvent)
      requires Valid() && Running(st) && WaitGuard(def, st, e) && Timely(def, now, OfWait(e)) && Fits(OfWait(e))
      modifies this`st, this`out
      ensures Valid() && old(out) < out && Running(st) && Last(OfWait(e)) && First(old(out), OfWait(e))
      ensures |out| == |old(out)| + 1
      ensures st == old(st).(ctl := WaitControl(old(st).ctl, e), data := WaitData(old(st).data, old(st).ctl, e, now),
                             book := NextBook(old(st).book))
    {
      hide Valid, WaitGuard, WaitControl, WaitData, Delay;
      Emit(OfWait(e));
    }

    /** Counts one visit of a node. */
    method EmitEntered(node: string)
      requires Valid() && Running(st) && EnterGuard(def, st, node) && (Free(st.ctl) ==> Led(node))
      modifies this`st, this`out
      ensures Valid() && old(out) < out && Running(st) && First(old(out), OfLife(Entered(node)))
      ensures st == old(st).(data := LifeData(old(st).data, Entered(node)), book := NextBook(old(st).book))
    {
      hide Valid, EnterGuard, Free, Leads;
      Emit(OfLife(Entered(node)));
    }

    // ---- Closing ----

    /** The children to cancel when the execution closes: all but the abandoned and the inherited ones. */
    method CancelChildren() returns (cancel: set<ChildId>)
      ensures cancel == Unclaimed(st.ctl, inherited)
    {
      cancel := {};
      var rest := st.ctl.children.Keys;
      while rest != {}
        invariant rest <= st.ctl.children.Keys
        invariant cancel == set k | k in st.ctl.children && k !in rest && !st.ctl.children[k].abandon
                                    && st.ctl.children[k].id !in inherited :: st.ctl.children[k].id
      {
        var k :| k in rest;
        rest := rest - {k};
        var c := st.ctl.children[k];
        if !c.abandon && c.id !in inherited {
          cancel := cancel + {c.id};
        }
      }
    }

    /** The children in flight under a fan-out or map, but for the abandoned ones. */
    method OwnedChildren(owner: string) returns (cancel: set<ChildId>)
      ensures cancel == OwnedCancellable(st.ctl, owner)
    {
      cancel := {};
      var rest := st.ctl.children.Keys;
      while rest != {}
        invariant rest <= st.ctl.children.Keys
        invariant cancel == set k | k in st.ctl.children && k !in rest && !st.ctl.children[k].abandon
                                    && st.ctl.children[k].owner == owner :: st.ctl.children[k].id
      {
        var k :| k in rest;
        rest := rest - {k};
        var c := st.ctl.children[k];
        if c.owner == owner && !c.abandon {
          cancel := cancel + {c.id};
        }
      }
    }

    method Fail(reason: Reason, node: string)
      requires Valid() && Running(st) && Kids() && Justified(def, out, st, reason, node) && Shaped(def, st.data)
      modifies this`st, this`out
      ensures Valid() && old(out) < out && Finished(def, st)
      ensures st.phase.ExecFailed? && st.reason == Some(reason) && st.exec == old(st).exec
    {
      hide Valid, Boundary, Justified;
      var cancel := CancelChildren();
      assert cancel == Cancellable(st);
      Emit(OfLife(ExecutionFailed(reason, node, cancel)));
    }

    method Cancel(why: string)
      requires Valid() && Running(st) && Kids() && out == [] && Shaped(def, st.data)
      modifies this`st, this`out
      ensures Valid() && old(out) < out && Finished(def, st)
      ensures st.phase.ExecCancelled? && st.exec == old(st).exec
      ensures First(old(out), OfLife(ExecutionCancelled(why, Cancellable(old(st)))))
    {
      hide Valid, Boundary, Justified;
      var cancel := CancelChildren();
      assert cancel == Cancellable(st);
      Emit(OfLife(ExecutionCancelled(why, cancel)));
    }

    // ---- Tasks ----

    method TimerAt(timer: Timer)
      requires Valid() && Running(st)
      requires TimerNode(timer) in def.byId && timer.at == now + Delay(def.byId[TimerNode(timer)], timer)
      modifies this`st, this`out
      ensures Valid() && old(out) < out && Running(st)
      ensures st == old(st).(ctl := TimerSetControl(old(st).ctl, timer), book := NextBook(old(st).book))
    {
      hide Valid, Delay;
      EmitWait(TimerSet(st.ctl.n + 1, timer));
    }

    /** The two events of an attempt, the second only if its node has a timeout. Generation 0 stands for the next number. */
    method Schedule(n: Node, key: Key, owner: string, index: nat, item: Json, resume: Option<Json>, by_: string,
                    gen: nat, attempt: nat)
      requires Valid() && Running(st) && InBudget(def, st.data.counters)
      requires key.node in def.byId && def.byId[key.node] == n
      requires ScheduleGuard(def, st.ctl, Attempt(n, key, owner, index, item, resume, by_, Generation(st.ctl, gen), attempt))
      modifies this`st, this`out
      ensures Valid() && old(out) < out && Running(st)
      ensures var e := Attempt(n, key, owner, index, item, resume, by_, Generation(old(st).ctl, gen), attempt);
              st == old(st).(ctl := ScheduleControl(old(st).ctl, n, e, now), book := st.book) && First(old(out), OfNode(e))
    {
      hide Valid, ScheduleGuard, InBudget;
      var e := Attempt(n, key, owner, index, item, resume, by_, Generation(st.ctl, gen), attempt);
      EmitNode(e);
      if n.timeout > 0 {
        TimerAt(TimeoutTimer(now + n.timeout, key, e.generation, attempt));
      }
    }

    // ---- Subflows ----

    /** A child for instance key, unless its input cannot be computed or is no object: then everything fails. */
    method StartChild(n: Node, key: Key, owner: string, index: nat, item: Json)
      requires Valid() && Running(st) && Kids() && ChildGuard(st, key, ChildOf(st, n, owner, index))
      requires DataOk(def, st.data) && item == ItemAt(st.ctl, owner, index)
      requires n.id in def.byId && def.byId[n.id] == n
      requires owner == n.id ==> IsItem(st.ctl, owner, n.id) && index < |st.ctl.maps[owner].items|
      modifies this`st, this`out
      ensures Valid() && old(out) < out && st.exec == old(st).exec
      ensures || (Finished(def, st) && st.phase.ExecFailed?)
              || (Running(st) && st == old(st).(ctl := ChildControl(old(st).ctl, key, ChildOf(old(st), n, owner, index)),
                                                book := st.book))
    {
      hide Valid, Kids, ChildGuard, Finished, InBudget, Typed, StepsBounded;
      var isItem := owner == n.id;
      var input := if isItem then item else st.input;
      if n.input.Some? {
        var v := n.input.value(ViewOf(st, if isItem then Some((index, item)) else None));
        if v.None? {
          assert BadInput(def, st, n.id, owner, index);
          Fail(ReasonExpression, n.id);
          return;
        }
        input := v.value;
      }
      if !input.Obj? {
        assert BadInput(def, st, n.id, owner, index);
        Fail(ReasonExpression, n.id);
        return;
      }
      EmitWait(ChildStarted(key, ChildOf(st, n, owner, index), input));
    }

    // ---- Routing ----

    /** Completes the execution with the flow's output. */
    method Complete()
      requires Valid() && Ready(def, st) && inherited == {} && Led("")
      modifies this`st, this`out
      ensures Valid() && old(out) < out && Finished(def, st) && st.exec == old(st).exec && Completes(old(st))
    {
      hide Valid, Boundary, Leads, FlowOutput, Numbered, Typed, StepsBounded, InBudget;
      var output := Output();
      if output.None? {
        Fail(ReasonExpression, "");
        return;
      }
      Emit(OfLife(ExecutionCompleted(output.value)));
    }

    /** What the execution completes with; None is an expression that fails or gives no object. */
    method Output() returns (output: Option<Json>)
      ensures output == FlowOutput(def, st)
    {
      if def.output.Some? {
        var v := def.output.value(ViewOf(st, None));
        if v.None? || (!v.value.Null? && !v.value.Obj?) {
          return None;
        }
        return v;
      }
      if |def.channels| > 0 {
        return Some(Obj(st.data.channels));
      }
      return Some(Get(st.data.results, st.data.lastNode, Null));
    }

    /** Control passes from n to dyn if that is set, else to the successor in the definition, else to completion. */
    method Advance(n: Node, dyn: string)
      requires Valid() && Ready(def, st) && inherited == {} && RouteOk(def, n.next) && RouteOk(def, dyn)
      requires Led(if dyn == "" then n.next else dyn)
      modifies this`st, this`out
      ensures Valid() && old(out) < out && Boundary(def, st) && st.exec == old(st).exec
      ensures var to := if dyn == "" then n.next else dyn;
              if to == "" then Completes(old(st)) else Visits(old(st), old(out), to)
      decreases Fuel(), 1
    {
      hide Valid, Ready, Boundary, Sound, Led, Completes, Visits;
      var next := if dyn == "" then n.next else dyn;
      if next == "" {
        Complete();
        FinishedIsBoundary(def, st);
      } else {
        Enter(next);
      }
    }

    /** Visits node id. */
    method Enter(id: string)
      requires Valid() && Ready(def, st) && inherited == {} && Enterable(def, id) && Led(id)
      modifies this`st, this`out
      ensures Valid() && old(out) < out && Boundary(def, st) && st.exec == old(st).exec
      ensures Visits(old(st), old(out), id)
      decreases Fuel(), 0
    {
      hide Valid, Boundary, Finished, DataOk, Shaped, FanoutOk, RouteOk, RuleOk, LedTo, DeadEnd, ExpressionFails;
      var n := def.byId[id];
      assert Known(def, id);
      if st.data.steps + 1 > MaxSteps(def) {
        OkShaped(def, st.data);
        Fail(ReasonMaxSteps, id);
        FinishedIsBoundary(def, st);
        return;
      }
      DataOkEntered(def, st.data, id);
      EmitEntered(id);
      match n.typ {
        case TaskNode => EnterTaskNode(n);
        case ChoiceNode => Choose(n);
        case FanoutNode => StartFanout(n);
        case AwaitNode => StartAwait(n);
        case MapNode => StartMap(n);
        case SubflowNode => EnterSubflow(n);
      }
    }

    method EnterTaskNode(n: Node)
      requires Valid() && Ready(def, st) && inherited == {}
      requires n.id in def.byId && def.byId[n.id] == n && n.typ.TaskNode?
      modifies this`st, this`out
      ensures Valid() && old(out) < out && Boundary(def, st) && st.exec == old(st).exec
    {
      hide Valid, Boundary, OnTask, Timed, Numbered, ScheduleGuard, ScheduleControl;
      EnterTask(def, st.ctl, n, Attempt(n, Plain(n.id), "", 0, Null, None, "", st.ctl.n + 1, 1), now);
      ghost var e := Attempt(n, Plain(n.id), "", 0, Null, None, "", st.ctl.n + 1, 1);
      ScheduleShape(def, st.ctl, n, e, now);
      Schedule(n, Plain(n.id), "", 0, Null, None, "", 0, 1);
      RestOnTask(def, st, n.id);
    }

    method EnterSubflow(n: Node)
      requires Valid() && Ready(def, st) && inherited == {}
      requires n.id in def.byId && def.byId[n.id] == n && n.typ.SubflowNode?
      modifies this`st, this`out
      ensures Valid() && old(out) < out && Boundary(def, st) && st.exec == old(st).exec
    {
      NamedNodes(def);
      hide Valid, Boundary, OnChild, Timed, Numbered, ChildGuard, ChildControl;
      EnterChild(def, st, n);
      ChildShape(st, Plain(n.id), ChildOf(st, n, "", 0));
      StartChild(n, Plain(n.id), "", 0, Null);
      if st.phase.Live? {
        RestOnChild(def, st, n.id);
      } else {
        FinishedIsBoundary(def, st);
      }
    }

    // ---- Choice ----

    /** Follows the first rule that matches, or the default. */
    method Choose(n: Node)
      requires Valid() && Ready(def, st) && inherited == {} && NodeOk(def, n) && n.typ.ChoiceNode?
      requires n.id in def.byId && def.byId[n.id] == n
      modifies this`st, this`out
      ensures Valid() && old(out) < out && Boundary(def, st) && st.exec == old(st).exec
      ensures exists rule: nat, to ::
                First(old(out), OfNode(Choice(n.id, rule, to))) && ChoiceGuard(def, ViewOf(old(st), None), n.id, rule, to)
      decreases Fuel(), 2
    {
      hide Valid, Ready, Boundary, FanoutOk, RouteOk;
      var view := ViewOf(st, None);
      var otherwise := -1;
      for i := 0 to |n.rules|
        invariant -1 <= otherwise < i
        invariant forall j :: 0 <= j < i ==> Skips(n, view, j)
        invariant forall j :: otherwise < j < i ==> !n.rules[j].isDefault
        invariant otherwise >= 0 ==> n.rules[otherwise].isDefault
      {
        if n.rules[i].isDefault {
          otherwise := i;
          continue;
        }
        var ok := n.rules[i].when(view);
        if ok.None? {
          if n.failOnError {
            ReadyRuns(def, st);
            EmitNode(Choice(n.id, i, ""));
            assert Doomed(ReasonExpression, n.id);
            Fail(ReasonExpression, n.id);
            FinishedIsBoundary(def, st);
            return;
          }
        } else if ok.value {
          Route(n, i, n.rules[i].to);
          return;
        }
      }
      Route(n, otherwise, n.rules[otherwise].to);
    }

    /** The event of a choice, then what it leads to. */
    method Route(n: Node, rule: nat, to: string)
      requires Valid() && Ready(def, st) && inherited == {} && (to == END || Enterable(def, to)) && to != ""
      requires ChoiceGuard(def, ViewOf(st, None), n.id, rule, to)
      modifies this`st, this`out
      ensures Valid() && old(out) < out && Boundary(def, st) && st.exec == old(st).exec
      ensures First(old(out), OfNode(Choice(n.id, rule, to)))
      decreases Fuel(), 1
    {
      hide Valid, Boundary, Enterable, Free, Numbered, ChoiceGuard, Completes, Visits;
      EmitNode(Choice(n.id, rule, to));
      if to == END {
        Complete();
        FinishedIsBoundary(def, st);
      } else {
        Enter(to);
      }
    }

    // ---- Awaits and signals ----

    /** Opens await n with its timer; a signal that arrived before is consumed now. */
    method StartAwait(n: Node)
      requires Valid() && Running(st) && AwaitReady(st.ctl, n.id) && Numbered(st.ctl) && DataOk(def, st.data) && inherited == {}
      requires n.id in def.byId && def.byId[n.id] == n && n.typ.AwaitNode? && RouteOk(def, n.next)
      modifies this`st, this`out
      ensures Valid() && old(out) < out && Boundary(def, st) && st.exec == old(st).exec
      ensures !Buffers(old(st).data, n.signal) ==> st == old(st).(ctl := AwaitControl(old(st).ctl, n, now), book := st.book)
      decreases Fuel(), 3
    {
      hide Valid, Boundary, DataOk, Numbered, Timed, OnAwait, Buffers, RouteOk, Justified, Sound, ChildGuard;
      EnterAwait(def, st.ctl, n, now);
      var nr := st.ctl.n + 1;
      EmitWait(AwaitStarted(n.id, n.signal, nr));
      EmitWait(TimerSet(nr, AwaitTimer(now + n.timeout, n.id)));
      assert st.ctl == AwaitControl(old(st).ctl, n, now);
      Consume(n);
    }

    /** If a signal that n waits for is buffered, the one that came first closes the await. */
    method Consume(n: Node)
      requires Valid() && Running(st) && inherited == {} && OnAwait(def, st.ctl, n.id)
      requires Numbered(st.ctl) && Timed(def, st.ctl) && DataOk(def, st.data)
      requires n == def.byId[n.id] && RouteOk(def, n.next)
      modifies this`st, this`out
      ensures Valid() && old(out) <= out && Boundary(def, st) && st.exec == old(st).exec
      ensures if Buffers(old(st).data, n.signal) then
                First(old(out), OfWait(SignalConsumed(n.id, n.signal, Oldest(old(st).data, n.signal).id)))
              else st == old(st) && out == old(out)
      decreases Fuel(), 2
    {
      hide Valid, Boundary, DataOk, Numbered, Timed, Free, AwaitClosed, Completes, Visits;
      var i := FirstNamed(st.data.buffered, n.signal);
      if i == |st.data.buffered| {
        RestOnAwait(def, st, n.id);
        return;
      }
      AwaitLeft(def, st.ctl, n.id);
      var e := SignalConsumed(n.id, n.signal, st.data.buffered[i].id);
      DataOkWait(def, st.data, st.ctl, e, now);
      assert WaitGuard(def, st, e);
      hide WaitGuard, WaitData, OnAwait;
      EmitWait(e);
      Advance(n, "");
    }

    // ---- Fan-out ----

    /** Starts every branch; a branch child that cannot start fails the execution. */
    method StartFanout(n: Node)
      requires Valid() && Ready(def, st) && inherited == {} && st.data.steps <= MaxSteps(def)
      requires n.id in def.byId && def.byId[n.id] == n && n.typ.FanoutNode? && FanoutOk(def, n)
      modifies this`st, this`out
      ensures Valid() && old(out) < out && Boundary(def, st) && st.exec == old(st).exec
      ensures First(old(out), OfGraph(FanoutStarted(n.id, n.next, n.branches)))
      ensures st.phase.Live? ==>
                && OnFan(def, st.ctl, n.id) && (forall b | b in n.branches :: BranchOpen(st.ctl, b))
                && st.data.steps == old(st).data.steps + |n.branches|
    {
      hide Valid, Boundary, Numbered, Timed, FanPartial, GraphControl, DataOk, Verdict, Sound, TaskOk, ChildOk, WaitFor;
      FanStarted(def, st.ctl, n);
      EmitGraph(FanoutStarted(n.id, def.joinOf[n.id], n.branches));
      FanStartedRest(def, old(st).ctl, st.ctl, n);
      var i := 0;
      while i < |n.branches|
        invariant 0 <= i <= |n.branches| && Valid() && old(out) < out && Running(st) && st.exec == old(st).exec
        invariant FanPartial(def, st.ctl, n, i) && Numbered(st.ctl) && Timed(def, st.ctl) && OwnChildren(st)
        invariant DataOk(def, st.data) && st.data.steps == old(st).data.steps + i
        invariant First(old(out), OfGraph(FanoutStarted(n.id, n.next, n.branches)))
      {
        StartBranch(n, i);
        if Terminal(st.phase) {
          FinishedIsBoundary(def, st);
          return;
        }
        i := i + 1;
      }
      FanRunning(def, st.ctl, n);
      FanPendings(def, st.ctl, n);
      FanUndecided(def, st.ctl, n);
      RestOnFan(def, st, n.id);
    }

    method StartBranch(n: Node, i: nat)
      requires Valid() && Running(st) && inherited == {} && n.id in def.byId && def.byId[n.id] == n && FanoutOk(def, n)
      requires n.typ.FanoutNode?
      requires i < |n.branches| && FanPartial(def, st.ctl, n, i)
      requires Numbered(st.ctl) && Timed(def, st.ctl) && OwnChildren(st)
      requires DataOk(def, st.data) && st.data.steps <= MaxSteps(def) + i
      modifies this`st, this`out
      ensures Valid() && old(out) < out && st.exec == old(st).exec
      ensures || Finished(def, st)
              || (&& Running(st) && FanPartial(def, st.ctl, n, i + 1)
                  && Numbered(st.ctl) && Timed(def, st.ctl) && OwnChildren(st)
                  && DataOk(def, st.data) && st.data.steps == old(st).data.steps + 1)
    {
      hide Valid, Finished, FanPartial, Numbered, Timed, ScheduleControl, ScheduleGuard, ChildControl, ChildGuard, DataOk,
           Free, EnterGuard, InBudget;
      assert BranchOk(def, n.id, n.branches[i]);
      BranchEntered(def, st, n, i);
      hide FanoutOk;
      var b := n.branches[i];
      assert Known(def, b) && def.byId[b].id == b;
      hide Sound;
      DataOkBranch(def, st.data, n.id, b);
      EmitEntered(b);
      FillBranch(n, i);
    }

    /** Starts what branch i of fan-out n runs: a task or a child. */
    method FillBranch(n: Node, i: nat)
      requires Valid() && Running(st) && inherited == {} && n.id in def.byId && def.byId[n.id] == n && FanoutOk(def, n)
      requires i < |n.branches| && FanPartial(def, st.ctl, n, i) && n.branches[i] in def.byId
      requires var bn := def.byId[n.branches[i]]; bn.id == n.branches[i] && bn.id != n.id && (bn.typ.TaskNode? || bn.typ.SubflowNode?)
      requires Numbered(st.ctl) && Timed(def, st.ctl) && OwnChildren(st) && DataOk(def, st.data)
      modifies this`st, this`out
      ensures Valid() && old(out) < out && st.exec == old(st).exec
      ensures || Finished(def, st)
              || (&& Running(st) && FanPartial(def, st.ctl, n, i + 1)
                  && Numbered(st.ctl) && Timed(def, st.ctl) && OwnChildren(st) && st.data == old(st).data)
    {
      hide Valid, Finished, FanPartial, Numbered, Timed, ScheduleControl, ScheduleGuard, ChildControl, ChildGuard, DataOk, FanoutOk,
           InBudget, Sound;
      var b := n.branches[i];
      var bn := def.byId[b];
      BudgetKept(def, st.data);
      if bn.typ.SubflowNode? {
        BranchChild(def, st, n, i);
        StartChild(bn, Plain(b), n.id, 0, Null);
      } else {
        BranchTask(def, st.ctl, n, i, now);
        Schedule(bn, Plain(b), n.id, 0, Null, None, "", 0, 1);
      }
    }

    // ---- Maps ----

    method StartMap(n: Node)
      requires Valid() && Ready(def, st) && inherited == {}
      requires n.id in def.byId && def.byId[n.id] == n && n.typ.MapNode? && RouteOk(def, n.next)
      modifies this`st, this`out
      ensures Valid() && old(out) < out && Boundary(def, st) && st.exec == old(st).exec
      ensures match MapItems(n, old(st))
              case Some(items) => First(old(out), OfGraph(MapStarted(n.id, items, n.maxParallel)))
              case None => FailedOf(ReasonExpression)
      decreases Fuel(), 3
    {
      hide Valid, Boundary, Numbered, DataOk, Shaped, MapOpen;
      var v := n.over(ViewOf(st, None));
      if v.None? || (!v.value.Arr? && !v.value.Null?) {
        OkShaped(def, st.data);
        Fail(ReasonExpression, n.id);
        FinishedIsBoundary(def, st);
        return;
      }
      var items := if v.value.Arr? then v.value.elems else [];
      assert MapItems(n, st) == Some(items);
      hide MapItems;
      MapBegun(def, st.ctl, n, items);
      MapBegunRest(def, st.ctl, n, items);
      EmitGraph(MapStarted(n.id, items, n.maxParallel));
      MapProgress(n);
    }

    /** Brings an open map to rest at its limit, or closes it if nothing of it is left to do. */
    method MapProgress(n: Node)
      requires Valid() && inherited == {} && Settling(def, st) && MapOpen(def, st.ctl, n.id)
      requires n.id in def.byId && def.byId[n.id] == n && RouteOk(def, n.next)
      modifies this`st, this`out
      ensures Valid() && old(out) <= out && Boundary(def, st) && st.exec == old(st).exec
      ensures var m := old(st).ctl.maps[n.id];
              if m.done == |m.items| then First(old(out), OfGraph(MapCompleted(n.id)))
              else st.phase.Live? ==> Rests(def, st.ctl, n.id, m)
      decreases Fuel(), 2
    {
      hide Valid, Boundary, MapOpen, Numbered, Timed, DataOk, GraphControl, Free, GraphData, JoinGuard, MapItems,
           OwnChildren, OwnedCancellable, Enterable, Completes, Visits, Rests;
      MapCount(def, st.ctl, n.id);
      var m := st.ctl.maps[n.id];
      if m.done == |m.items| {
        MapDrained(def, st.ctl, n.id);
        MapLeft(def, st.ctl, n.id);
        DataOkGraph(def, st.data, st.ctl, MapCompleted(n.id));
        EmitGraph(MapCompleted(n.id));
        Advance(n, "");
      } else {
        FillMap(n);
      }
    }

    method FillMap(n: Node)
      requires Valid() && inherited == {} && Settling(def, st) && MapOpen(def, st.ctl, n.id)
      requires n.id in def.byId && def.byId[n.id] == n && st.ctl.maps[n.id].done < |st.ctl.maps[n.id].items|
      modifies this`st, this`out
      ensures Valid() && old(out) <= out && Boundary(def, st) && st.exec == old(st).exec
      ensures st.phase.Live? ==> Rests(def, st.ctl, n.id, old(st).ctl.maps[n.id])
    {
      hide Valid, Boundary, MapOpen, Settling, Finished;
      MapCount(def, st.ctl, n.id);
      var m := st.ctl.maps[n.id];
      while st.ctl.maps[n.id].next < |m.items| && st.ctl.maps[n.id].next - m.done < ParallelLimit(m.maxParallel)
        invariant Valid() && old(out) <= out && st.exec == old(st).exec
        invariant Settling(def, st) && MapOpen(def, st.ctl, n.id)
        invariant n.id in st.ctl.maps && st.ctl.maps[n.id] == m.(next := st.ctl.maps[n.id].next)
        decreases |m.items| - st.ctl.maps[n.id].next
      {
        StartItem(n);
        if Terminal(st.phase) {
          NotSettling(def, st);
          FinishedIsBoundary(def, st);
          return;
        }
        NotFinished(def, st);
        MapCount(def, st.ctl, n.id);
      }
      MapCount(def, st.ctl, n.id);
      RestOnMap(def, st, n.id);
    }

    /** Starts the next item, as a task or as a child execution. */
    method StartItem(n: Node)
      requires Valid() && inherited == {} && Settling(def, st) && MapOpen(def, st.ctl, n.id) && MapRoom(st.ctl, n.id)
      requires n.id in def.byId && def.byId[n.id] == n
      modifies this`st, this`out
      ensures Valid() && old(out) < out && st.exec == old(st).exec
      ensures || Finished(def, st)
              || (&& Settling(def, st) && MapOpen(def, st.ctl, n.id)
                  && st.ctl.maps[n.id] == old(st).ctl.maps[n.id].(next := old(st).ctl.maps[n.id].next + 1))
    {
      hide Valid, Finished, MapOpen, Numbered, Timed, ScheduleControl, ScheduleGuard, ChildControl, ChildGuard, DataOk,
           InBudget;
      BudgetKept(def, st.data);
      MapCount(def, st.ctl, n.id);
      var m := st.ctl.maps[n.id];
      if n.flow != "" {
        ItemChild(def, st, n);
        StartChild(n, Item(n.id, m.next), n.id, m.next, m.items[m.next]);
      } else {
        ItemTask(def, st.ctl, n, now);
        Schedule(n, Item(n.id, m.next), n.id, m.next, m.items[m.next], None, "", 0, 1);
      }
    }

    /** Empties the tasks, which all belong to owner; branches that were pending become dropped. */
    method CancelTasks(owner: string)
      requires Valid() && Running(st) && forall k | k in st.ctl.tasks :: st.ctl.tasks[k].owner == owner
      modifies this`st, this`out
      ensures Valid() && old(out) <= out && Running(st)
      ensures st == old(st).(ctl := st.ctl, book := st.book) && st.ctl.tasks == map[]
      ensures st.ctl == old(st).ctl.(tasks := map[], fans := st.ctl.fans) && st.ctl.fans.Keys == old(st).ctl.fans.Keys
      ensures forall x | x in st.ctl.fans :: OnlyDropped(old(st).ctl, st.ctl, x)
    {
      hide Valid, OnlyDropped;
      forall x | x in st.ctl.fans ensures OnlyDropped(st.ctl, st.ctl, x) { NoneDropped(st.ctl, x); }
      var rest := st.ctl.tasks.Keys;
      while rest != {}
        invariant Valid() && old(out) <= out && Running(st) && st.ctl.tasks.Keys == rest
        invariant forall k | k in st.ctl.tasks :: st.ctl.tasks[k].owner == owner
        invariant st == old(st).(ctl := st.ctl, book := st.book)
        invariant st.ctl == old(st).ctl.(tasks := st.ctl.tasks, fans := st.ctl.fans)
        invariant st.ctl.fans.Keys == old(st).ctl.fans.Keys
        invariant forall k | k in st.ctl.tasks :: k in old(st).ctl.tasks && st.ctl.tasks[k] == old(st).ctl.tasks[k]
        invariant forall x | x in st.ctl.fans :: OnlyDropped(old(st).ctl, st.ctl, x)
      {
        var k :| k in rest;
        rest := rest - {k};
        TaskCancelled(st.ctl, k);
        forall x | x in st.ctl.fans ensures OnlyDropped(old(st).ctl, Settled(st.ctl, k, Dropped), x) {
          OneMoreDropped(old(st).ctl, st.ctl, k, x);
        }
        EmitNode(NodeCancel(k, st.ctl.tasks[k].node));
      }
    }

    /** Closes map n after an item failed permanently and continues at its on_failure. */
    method AbortMap(n: Node, index: nat)
      requires Valid() && Running(st) && inherited == {} && MapClosing(st.ctl, n.id)
      requires Numbered(st.ctl) && OwnChildren(st) && DataOk(def, st.data) && Enterable(def, n.onFailure)
      requires n.id in def.byId && def.byId[n.id] == n && n.onFailure != ""
      modifies this`st, this`out
      ensures Valid() && old(out) < out && Boundary(def, st) && st.exec == old(st).exec
      ensures Has(old(out), OfGraph(MapAborted(n.id, index, OwnedCancellable(old(st).ctl, n.id)))) && GoesOn(old(out), n.onFailure)
    {
      hide Valid, Boundary, DataOk, Enterable, GraphControl, Free;
      CancelTasks(n.id);
      assert Numbered(st.ctl);
      var cancel := OwnedChildren(n.id);
      hide Numbered;
      MapAbortLeft(st.ctl, n.id, index, cancel);
      EmitGraph(MapAborted(n.id, index, cancel));
      ghost var aborted := out;
      Enter(n.onFailure);
      assert out[|aborted| - 1].body == OfGraph(MapAborted(n.id, index, cancel));
    }

    // ---- Joins ----

    /** Sorts the awaited branches by how they ended and counts those that have not. */
    method Tally(waits: seq<string>, branches: map<string, BranchStatus>)
      returns (succeeded: seq<string>, failed: seq<string>, pending: nat)
      ensures succeeded == Those(waits, branches, Succeeded) && pending == Count(waits, branches, Pending)
      ensures failed == Lost(waits, branches)
    {
      succeeded, failed, pending := [], [], 0;
      for i := 0 to |waits|
        invariant succeeded == Those(waits[..i], branches, Succeeded)
        invariant failed == Lost(waits[..i], branches)
        invariant pending == Count(waits[..i], branches, Pending)
      {
        var b := waits[i];
        assert waits[..i + 1][..i] == waits[..i];
        match Get(branches, b, Pending) {
          case Succeeded => succeeded := succeeded + [b];
          case Failed => failed := failed + [b];
          case Dropped => failed := failed + [b];
          case Pending => pending := pending + 1;
        }
      }
      assert waits[..|waits|] == waits;
    }

    /** Closes fan-out fan if the verdict on its branches is known, and leaves it open otherwise. */
    method EvalJoin(fan: string)
      requires Valid() && inherited == {} && Settling(def, st) && FanOpen(def, st.ctl, fan)
      requires st.data.steps <= MaxSteps(def) + |def.byId[fan].branches|
      modifies this`st, this`out
      ensures Valid() && old(out) <= out && Boundary(def, st) && st.exec == old(st).exec
      ensures fan in def.byId && fan in def.joinOf && def.joinOf[fan] in def.byId
      ensures var waits, branches := WaitFor(def, fan), old(st).ctl.fans[fan].branches;
              match Verdict(def.byId[def.joinOf[fan]].policy, waits, branches)
              case None => st == old(st) && out == old(out)
              case Some(ok) => Joined(old(out), fan, Those(waits, branches, Succeeded), ok)
    {
      hide Valid, Boundary, Settling, FanOpen, BranchOk, Distinct, Joined;
      FanKnown(def, st.ctl, fan);
      var join := def.byId[st.ctl.fans[fan].join];
      var waits := WaitFor(def, fan);
      var branches := st.ctl.fans[fan].branches;
      var succeeded, failed, pending := Tally(waits, branches);
      var need := Need(join.policy, |waits|);
      if join.policy.JoinMin? && pending > 0 {
        RestOnFan(def, st, fan);
        return;
      }
      var ok := |succeeded| >= need;
      if !ok && |succeeded| + pending >= need {
        RestOnFan(def, st, fan);
        return;
      }
      LostAre(waits, branches);
      CloseJoin(fan, join, succeeded, failed, ok);
    }

    method CloseJoin(fan: string, join: Node, succeeded: seq<string>, failed: seq<string>, ok: bool)
      requires Valid() && inherited == {} && Settling(def, st) && FanOpen(def, st.ctl, fan)
      requires st.data.steps <= MaxSteps(def) + |def.byId[fan].branches|
      requires fan in def.byId && join.id == st.ctl.fans[fan].join && RouteOk(def, join.next) && RouteOk(def, join.onFailure)
      requires join.id in def.byId && join == def.byId[join.id] && JoinGuard(def, st, fan, succeeded, failed, ok)
      modifies this`st, this`out
      ensures Valid() && old(out) < out && Boundary(def, st) && st.exec == old(st).exec
      ensures Joined(old(out), fan, succeeded, ok)
      ensures if ok then GoesOn(old(out), join.next)
              else if join.onFailure != "" then GoesOn(old(out), join.onFailure)
              else FailedOf(ReasonJoin)
    {
      hide Valid, Boundary, DataOk, RouteOk, FanOpen, Timed, FanoutOk, JoinGuard, Ready, Led, Doomed, GoesOn;
      EndFan(fan, join, succeeded, failed, ok);
      ghost var settled := out;
      LeaveJoin(join, ok);
      if ok || join.onFailure != "" { LaterGoesOn(old(out), settled, if ok then join.next else join.onFailure); }
      assert JoinsAs(out[|settled| - 1].body, fan, succeeded, ok);
    }

    /** What goes on after later events goes on after earlier ones. */
    lemma LaterGoesOn(before: seq<Event>, later: seq<Event>, to: string)
      requires before <= later && GoesOn(later, to)
      ensures GoesOn(before, to)
    {
    }

    /** Cancels what is left of the fan-out, enters its join and records the verdict. */
    method EndFan(fan: string, join: Node, succeeded: seq<string>, failed: seq<string>, ok: bool)
      requires Valid() && Settling(def, st) && FanOpen(def, st.ctl, fan)
      requires fan in def.byId && st.data.steps <= MaxSteps(def) + |def.byId[fan].branches|
      requires join.id == st.ctl.fans[fan].join && join.id in def.byId && join == def.byId[join.id]
      requires JoinGuard(def, st, fan, succeeded, failed, ok)
      modifies this`st, this`out
      ensures Valid() && old(out) < out && Ready(def, st) && st.exec == old(st).exec
      ensures if ok then Led(join.next) else if join.onFailure != "" then Led(join.onFailure) else Doomed(ReasonJoin, join.id)
      ensures JoinsAs(out[|out| - 1].body, fan, succeeded, ok)
    {
      hide Valid, DataOk, FanOpen, Timed, FanoutOk, JoinGuard, Ready, Led, Doomed, JoinsAs;
      FanOpenCloses(def, st.ctl, fan);
      FanKnown(def, st.ctl, fan);
      var cancel := OwnedChildren(fan);
      CancelTasks(fan);
      assert Numbered(st.ctl);
      JoinStillDecided(def, old(st), st, fan, succeeded, failed, ok);
      JoinSettled(fan, join, succeeded, failed, ok, cancel);
    }

    /** Enters the join and records its verdict: the fan-out is gone, with its remaining children. */
    method JoinSettled(fan: string, join: Node, succeeded: seq<string>, failed: seq<string>, ok: bool, cancel: set<ChildId>)
      requires Valid() && Running(st) && FanClosing(st.ctl, fan) && st.ctl.tasks == map[]
      requires Numbered(st.ctl) && OwnChildren(st) && DataOk(def, st.data)
      requires fan in def.byId && st.data.steps <= MaxSteps(def) + |def.byId[fan].branches|
      requires st.ctl.fans[fan].join == join.id && cancel == OwnedCancellable(st.ctl, fan)
      requires JoinGuard(def, st, fan, succeeded, failed, ok) && join.id in def.byId && join == def.byId[join.id]
      modifies this`st, this`out
      ensures Valid() && old(out) < out && Ready(def, st) && st.exec == old(st).exec
      ensures if ok then Led(join.next) else if join.onFailure != "" then Led(join.onFailure) else Doomed(ReasonJoin, join.id)
      ensures JoinsAs(out[|out| - 1].body, fan, succeeded, ok)
    {
      hide Valid, DataOk, GraphControl, GraphData, Numbered, Free, EnterGuard, Sound, Verdict, Those, WaitFor;
      JoinEntered(def, st, fan, join.id, succeeded, failed, ok);
      DataOkBranch(def, st.data, fan, join.id);
      EmitEntered(join.id);
      RecordJoin(fan, join, succeeded, failed, ok, cancel);
    }

    /** Records the verdict of a join that was entered. */
    method RecordJoin(fan: string, join: Node, succeeded: seq<string>, failed: seq<string>, ok: bool, cancel: set<ChildId>)
      requires Valid() && Running(st) && FanClosing(st.ctl, fan) && st.ctl.tasks == map[]
      requires Numbered(st.ctl) && OwnChildren(st) && DataOk(def, st.data)
      requires st.ctl.fans[fan].join == join.id && cancel == OwnedCancellable(st.ctl, fan)
      requires JoinGuard(def, st, fan, succeeded, failed, ok) && join.id in def.byId && join == def.byId[join.id]
      modifies this`st, this`out
      ensures Valid() && old(out) < out && Ready(def, st) && st.exec == old(st).exec
      ensures if ok then Led(join.next) else if join.onFailure != "" then Led(join.onFailure) else Doomed(ReasonJoin, join.id)
      ensures JoinsAs(out[|out| - 1].body, fan, succeeded, ok)
    {
      hide Valid, DataOk, GraphControl, GraphData, Numbered, Free, JoinGuard, Sound;
      var outputs := map b | b in succeeded :: Get(st.data.results, b, Null);
      var e := JoinDone(join.id, fan, succeeded, failed, ok, Obj(outputs), cancel);
      JoinLeft(st.ctl, fan, e);
      DataOkGraph(def, st.data, st.ctl, e);
      EmitGraph(e);
    }

    method LeaveJoin(join: Node, ok: bool)
      requires Valid() && Ready(def, st) && inherited == {} && RouteOk(def, join.next) && RouteOk(def, join.onFailure)
      requires if ok then Led(join.next) else if join.onFailure != "" then Led(join.onFailure) else Doomed(ReasonJoin, join.id)
      modifies this`st, this`out
      ensures Valid() && old(out) < out && Boundary(def, st) && st.exec == old(st).exec
      ensures if ok then GoesOn(old(out), join.next)
              else if join.onFailure != "" then GoesOn(old(out), join.onFailure)
              else FailedOf(ReasonJoin)
    {
      hide Valid, Boundary, Ready, Enterable, Led, Shaped;
      if !ok {
        if join.onFailure != "" {
          Enter(join.onFailure);
        } else {
          ReadyRuns(def, st);
          Fail(ReasonJoin, join.id);
          FinishedIsBoundary(def, st);
        }
      } else {
        Advance(join, "");
      }
    }

    // ---- Completing and failing tasks ----

    /** Every write goes to a declared channel whose reducer takes it. */
    method CheckWrites(writes: map<string, Json>) returns (ok: bool)
      ensures ok <==> Declared(def, st.data, writes)
    {
      var rest := writes.Keys;
      while rest != {}
        invariant rest <= writes.Keys
        invariant forall c | c in writes && c !in rest ::
                    c in def.channels && Reduce(ReducerOf(def, c), Get(st.data.channels, c, Null), writes[c]).Some?
      {
        var c :| c in rest;
        if c !in def.channels || Reduce(def.channels[c].reducer, Get(st.data.channels, c, Null), writes[c]).None? {
          return false;
        }
        rest := rest - {c};
      }
      return true;
    }

    /** Whether some budget is exceeded once usage is added to the counters. */
    method OverBudget(usage: map<string, real>) returns (over: bool)
      ensures over <==> !WithinBudget(def, st.data.counters, usage)
    {
      var rest := def.budget.Keys;
      while rest != {}
        invariant rest <= def.budget.Keys
        invariant forall k | k in def.budget && k !in rest ::
                    Get(st.data.counters, k, 0.0) + Get(usage, k, 0.0) <= def.budget[k]
      {
        var k :| k in rest;
        if Get(st.data.counters, k, 0.0) + Get(usage, k, 0.0) > def.budget[k] {
          return true;
        }
        rest := rest - {k};
      }
      return false;
    }

    method CompleteTask(r: TaskRef, output: Json, writes: map<string, Json>, to: string, usage: map<string, real>)
      requires Valid() && inherited == {} && Resting(def, st) && out == []
      modifies this`st, this`out
      ensures Valid() && old(out) <= out && Boundary(def, st) && st.exec == old(st).exec
      ensures if !IsCurrent(old(st).ctl, r.key, r.generation, r.attempt) then st == old(st) && out == old(out)
              else old(out) < out && Answers(def, old(st), cmdId, CompleteCmd(r, output, writes, to, usage), out[|old(out)|].body)
    {
      hide Valid, Boundary, Held, Numbered, Timed, Quiet, StepsOk, DataOk, Declared, TimedBut, WithinBudget;
      if !IsCurrent(st.ctl, r.key, r.generation, r.attempt) {
        RestingIsBoundary(def, st);
        return;
      }
      OpenTask(def, st.ctl, r.key);
      RestingIsRestingBut(def, st, r.key);
      var t := st.ctl.tasks[r.key];
      var n := def.byId[t.node];
      var written := CheckWrites(writes);
      if (!output.Null? && !output.Obj?) || !written || (to != "" && (t.owner != "" || to !in n.dynamic)) {
        TaskFailed(r.key, false, ReasonInvalidOutput, usage);
        return;
      }
      if !output.Null? && !n.outputOk(output) {
        TaskFailed(r.key, true, ReasonInvalidOutput, usage);
        return;
      }
      TaskDone(NodeDone(r.key, t.node, r.generation, r.attempt, output, writes, to, usage));
    }

    /** Records an accepted completion; usage that exceeds a budget fails the execution. */
    method TaskDone(e: NodeEvent)
      requires Valid() && inherited == {} && out == [] && e.NodeDone? && RestingBut(def, st, e.key)
      requires NodeGuard(def, st, e)
      modifies this`st, this`out
      ensures Valid() && old(out) < out && Boundary(def, st) && st.exec == old(st).exec && First(old(out), OfNode(e))
    {
      hide Valid, Boundary, Held, Numbered, Quiet, StepsOk, DataOk, Declared, TimedBut, WithinBudget, ItemInRange, ChoiceGuard,
           ScheduleGuard, InBudget, Shaped, Justified;
      OpenTask(def, st.ctl, e.key);
      NodeDoneData(def, st.data, st.ctl, e, now);
      hide NodeData, NodeControl;
      var t := st.ctl.tasks[e.key];
      EmitNode(e);
      var over := OverBudget(map[]);
      if over {
        DoneKids(old(st), st, e);
        OverJustifies(def, out, st, t.node);
        Fail(ReasonBudget, t.node);
        FinishedIsBoundary(def, st);
        return;
      }
      InBudgetNow(def, st.data);
      SettleSteps(def, old(st), st, e, e.key);
      AfterSettle(t.owner, def.byId[t.node], e.to);
    }

    /** Continues after a task instance of node n completed. */
    method AfterSettle(owner: string, n: Node, dyn: string)
      requires Valid() && inherited == {} && Stepped(def, st, owner, n.id) && NodeKnown(def, n.id) && def.byId[n.id] == n
      requires (dyn == "" || dyn in n.dynamic) && Led(if dyn == "" then n.next else dyn)
      modifies this`st, this`out
      ensures Valid() && old(out) <= out && Boundary(def, st) && st.exec == old(st).exec
    {
      hide Valid, Boundary, Settling, FanOpen, MapOpen, Ready, RouteOk, Led;
      if owner in st.ctl.fans {
        EvalJoin(owner);
      } else if owner in st.ctl.maps && n.id == owner {
        MapProgress(n);
      } else {
        DynamicRoute(def, n, dyn);
        Advance(n, dyn);
      }
    }

    method FailTask(r: TaskRef, retryable: bool, reason: Option<Reason>, usage: map<string, real>)
      requires Valid() && inherited == {} && Resting(def, st) && out == []
      modifies this`st, this`out
      ensures Valid() && old(out) <= out && Boundary(def, st) && st.exec == old(st).exec
      ensures if !IsCurrent(old(st).ctl, r.key, r.generation, r.attempt) then st == old(st) && out == old(out)
              else old(out) < out && Answers(def, old(st), cmdId, FailCmd(r, retryable, reason, usage), out[|old(out)|].body)
    {
      hide Valid, Boundary, Resting, RestingBut;
      if !IsCurrent(st.ctl, r.key, r.generation, r.attempt) {
        RestingIsBoundary(def, st);
        return;
      }
      RestingIsRestingBut(def, st, r.key);
      TaskFailed(r.key, retryable, if reason.None? then ReasonError else reason.value, usage);
    }

    /** Records a failed attempt: retries it when allowed, otherwise lets the owner of the instance react. */
    method TaskFailed(key: Key, retryable: bool, reason: Reason, usage: map<string, real>)
      requires Valid() && inherited == {} && RestingBut(def, st, key) && Causes(reason)
      requires key in st.ctl.tasks && st.ctl.tasks[key].status.TaskScheduled?
      modifies this`st, this`out
      ensures Valid() && old(out) < out && Boundary(def, st) && st.exec == old(st).exec
      ensures old(st).ctl.tasks[key].node in def.byId
      ensures First(old(out), OfNode(FailureOf(def, old(st), key, retryable, reason, usage)))
    {
      hide Valid, Boundary, Held, Numbered, Quiet, StepsOk, DataOk, TimedBut, WithinBudget;
      OpenTask(def, st.ctl, key);
      var t := st.ctl.tasks[key];
      var n := def.byId[t.node];
      var over := OverBudget(usage);
      var willRetry := retryable && t.attempt < MaxAttempts(n) && !over;
      var e := NodeFail(key, t.node, t.generation, t.attempt, reason, willRetry, usage);
      if willRetry {
        RetryTask(n, e);
      } else {
        TaskLost(n, e, over);
      }
    }

    /** A failure that is retried: the task waits for a timer. */
    method RetryTask(n: Node, e: NodeEvent)
      requires Valid() && e.NodeFail? && e.willRetry && RestingBut(def, st, e.key) && NodeGuard(def, st, e) && Causes(e.reason)
      requires n == def.byId[e.node] && WithinBudget(def, st.data.counters, e.usage)
      modifies this`st, this`out
      ensures Valid() && old(out) < out && Boundary(def, st) && st.exec == old(st).exec && First(old(out), OfNode(e))
    {
      hide Valid, Boundary, Held, Numbered, Quiet, StepsOk, DataOk, TimedBut, WithinBudget, MaxAttempts, ItemInRange, Declared,
           ChoiceGuard, ScheduleGuard, InBudget, Backoff, NodeData, NodeControl, TaskTimed, Replaced, TimersKept;
      OpenTask(def, st.ctl, e.key);
      NodeFailData(def, st.data, st.ctl, e, now);
      var delay := Backoff(n, e.attempt + 1);
      assert delay > 0 by { RetryWaits(n, e.attempt + 1); } // never scheduled at once: a node that retries has a delay
      RetryReplaces(def, st.ctl, e.key, e, now + delay);
      assert IsCurrent(st.ctl, e.key, e.generation, e.attempt);
      EmitNode(e);
      TimerAt(RetryTimer(now + delay, e.key, e.generation, e.attempt + 1));
      RestReplaced(def, old(st), st, e.key);
      RestingIsBoundary(def, st);
    }

    /** Records a permanent failure; usage that exceeds a budget fails the execution. */
    method TaskLost(n: Node, e: NodeEvent, over: bool)
      requires Valid() && inherited == {} && e.NodeFail? && !e.willRetry && RestingBut(def, st, e.key) && NodeGuard(def, st, e)
      requires Causes(e.reason)
      requires e.node in def.byId && n == def.byId[e.node] && (over <==> !WithinBudget(def, st.data.counters, e.usage))
      modifies this`st, this`out
      ensures Valid() && old(out) < out && Boundary(def, st) && st.exec == old(st).exec && First(old(out), OfNode(e))
    {
      hide Valid, Boundary, Held, Numbered, Quiet, StepsOk, DataOk, TimedBut, WithinBudget, Shaped, ScheduleGuard, ItemInRange, Declared, ChoiceGuard,
           Justified;
      OpenTask(def, st.ctl, e.key);
      NodeFailData(def, st.data, st.ctl, e, now);
      hide NodeData, NodeControl;
      var t := st.ctl.tasks[e.key];
      EmitNode(e);
      if over {
        FailKids(old(st), st, e);
        LostJustifies(def, out, old(st).data, st, old(st).ctl, e, now);
        Fail(ReasonBudget, t.node);
        FinishedIsBoundary(def, st);
        return;
      }
      SettleSteps(def, old(st), st, e, e.key);
      AfterFailure(t.owner, n, t.index, e.reason);
    }

    /** Continues after an instance of node n failed permanently. */
    method AfterFailure(owner: string, n: Node, index: nat, reason: Reason)
      requires Valid() && inherited == {} && FailStepped(def, st, owner, n.id) && NodeKnown(def, n.id) && def.byId[n.id] == n
      requires if n.onFailure != "" then Led(n.onFailure) else Doomed(reason, n.id)
      modifies this`st, this`out
      ensures Valid() && old(out) <= out && Boundary(def, st) && st.exec == old(st).exec
    {
      hide Valid, Boundary, Settling, FanOpen, MapOpen, MapClosing, Numbered, DataOk, Free, Enterable, Led, Sound, Has, GoesOn,
           Visits, Verdict, Those, WaitFor, Joined, Shaped;
      if owner in st.ctl.fans {
        EvalJoin(owner);
      } else if n.onFailure != "" {
        if owner in st.ctl.maps && n.id == owner {
          AbortMap(n, index);
        } else {
          Enter(n.onFailure);
        }
      } else {
        FailRuns(def, st, owner, n.id);
        Fail(reason, n.id);
        FinishedIsBoundary(def, st);
      }
    }

    // ---- Interrupts ----

    method Interrupt(r: TaskRef, payload: Json, usage: map<string, real>)
      requires Valid() && inherited == {} && Resting(def, st) && out == []
      modifies this`st, this`out
      ensures Valid() && old(out) <= out && Boundary(def, st) && st.exec == old(st).exec
      ensures if !IsCurrent(old(st).ctl, r.key, r.generation, r.attempt) then st == old(st) && out == old(out)
              else old(out) < out && Answers(def, old(st), cmdId, InterruptCmd(r, payload, usage), out[|old(out)|].body)
    {
      hide Valid, Boundary, Held, Numbered, Timed, Quiet, StepsOk, DataOk, TimedBut, WithinBudget, Accepted, Fixable, FailureOf,
           NodeKnown, TaskOk, Resumes, ItemInRange, Declared, ChoiceGuard, ScheduleGuard, InBudget, Shaped, Justified;
      if !IsCurrent(st.ctl, r.key, r.generation, r.attempt) {
        RestingIsBoundary(def, st);
        return;
      }
      OpenTask(def, st.ctl, r.key);
      RestingIsRestingBut(def, st, r.key);
      var node := st.ctl.tasks[r.key].node;
      var e := Interrupted(r.key, node, r.generation, payload, usage);
      InterruptData(def, st.data, st.ctl, e, now);
      InterruptReplaces(def, st.ctl, r.key, e);
      hide NodeData, NodeControl, Replaced, TimersKept, TaskTimed;
      EmitNode(e);
      var over := OverBudget(map[]);
      if over {
        FailKids(old(st), st, e);
        OverJustifies(def, out, st, node);
        Fail(ReasonBudget, node);
        FinishedIsBoundary(def, st);
        return;
      }
      InBudgetNow(def, st.data);
      RestReplaced(def, old(st), st, r.key);
      RestingIsBoundary(def, st);
    }

    /** Runs an interrupted instance again with the resume value; without one there is nothing to do. */
    method Resume(node: string, key: Option<Key>, value: Json, who: string)
      requires Valid() && inherited == {} && Resting(def, st)
      modifies this`st, this`out
      ensures Valid() && old(out) <= out && Boundary(def, st) && st.exec == old(st).exec
      ensures if forall k | k in old(st).ctl.tasks :: !Resumes(old(st).ctl, k, node, key) then
                st == old(st) && out == old(out)
              else old(out) < out && Answers(def, old(st), cmdId, ResumeCmd(node, key, value, who), out[|old(out)|].body)
    {
      hide Valid, Boundary, Resting, RestingBut, Accepted, Fixable, FailureOf, NodeKnown, TaskOk;
      var rest := st.ctl.tasks.Keys;
      while rest != {}
        invariant rest <= st.ctl.tasks.Keys && st == old(st) && out == old(out)
        invariant forall k | k in st.ctl.tasks && k !in rest :: !Resumes(st.ctl, k, node, key)
      {
        var k :| k in rest;
        if Resumes(st.ctl, k, node, key) {
          RestingIsRestingBut(def, st, k);
          OpenTaskNode(def, st, k);
          Reschedule(k, Some(value), who, 0, 1);
          return;
        }
        rest := rest - {k};
      }
      RestingIsBoundary(def, st);
    }

    /** Schedules open instance k again. */
    method Reschedule(k: Key, resume: Option<Json>, who: string, gen: nat, attempt: nat)
      requires Valid() && inherited == {} && RestingBut(def, st, k) && k in st.ctl.tasks && NodeKnown(def, st.ctl.tasks[k].node)
      requires st.ctl.tasks[k].node == k.node
      requires var t := st.ctl.tasks[k];
               var n := def.byId[t.node];
               Again(def, st.ctl, k, Attempt(n, k, t.owner, t.index, t.item, resume, who, Generation(st.ctl, gen), attempt))
      modifies this`st, this`out
      ensures Valid() && old(out) < out && Resting(def, st) && Boundary(def, st) && st.exec == old(st).exec
      ensures var t := old(st).ctl.tasks[k];
              First(old(out), OfNode(Attempt(def.byId[t.node], k, t.owner, t.index, t.item, resume, who,
                                             Generation(old(st).ctl, gen), attempt)))
    {
      hide Valid, Held, Numbered, Quiet, StepsOk, DataOk, TimedBut, ScheduleControl, ScheduleGuard, Replaced, TaskTimed,
           TimersKept, Again;
      var t := st.ctl.tasks[k];
      var n := def.byId[t.node];
      BudgetKept(def, st.data);
      AgainReplaces(def, st.ctl, k, n, Attempt(n, k, t.owner, t.index, t.item, resume, who, Generation(st.ctl, gen), attempt), now);
      hide Boundary;
      Schedule(n, k, t.owner, t.index, t.item, resume, who, gen, attempt);
      RestReplaced(def, old(st), st, k);
      RestingIsBoundary(def, st);
    }

    // ---- Timers ----

    /** Timer id has just fired in state before, and nothing else happened yet. */
    ghost predicate Fired(before: State, id: nat)
      reads this
    {
      && id in before.ctl.timers && |out| == 1 && out[0].body == OfWait(TimerFired(id)) && Running(st)
      && st.exec == before.exec && st.data == before.data && st.ctl == before.ctl.(timers := before.ctl.timers - {id})
    }

    /** A timer fired: it retries or times out the attempt it was set for, or its await; otherwise it is stale. */
    method Timer(id: nat)
      requires Valid() && inherited == {} && Resting(def, st) && out == []
      modifies this`st, this`out
      ensures Valid() && old(out) <= out && Boundary(def, st) && st.exec == old(st).exec
      ensures if id in old(st).ctl.timers then First(old(out), OfWait(TimerFired(id))) && Fires(def, old(st), id, out)
              else st == old(st) && out == old(out)
    {
      hide Valid, Boundary, Resting, RestingBut;
      if id !in st.ctl.timers {
        RestingIsBoundary(def, st);
        return;
      }
      var tm := st.ctl.timers[id];
      RestingRuns(def, st);
      EmitWait(TimerFired(id));
      match tm {
        case RetryTimer(_, key, generation, attempt) =>
          RetryFired(id, key, generation, attempt, old(st));
        case TimeoutTimer(_, key, generation, attempt) => TimeoutFired(id, key, generation, attempt, old(st));
        case AwaitTimer(_, node) => AwaitTimeout(id, node, old(st));
      }
    }

    /** A retry timer fired; before is the state it fired in. */
    method RetryFired(id: nat, key: Key, generation: nat, attempt: nat, ghost before: State)
      requires Valid() && inherited == {} && Resting(def, before) && Fired(before, id)
      requires before.ctl.timers[id].RetryTimer? && before.ctl.timers[id].key == key
      requires before.ctl.timers[id].generation == generation && before.ctl.timers[id].attempt == attempt
      modifies this`st, this`out
      ensures Valid() && old(out) <= out && Boundary(def, st) && st.exec == old(st).exec && Fires(def, before, id, out)
    {
      hide Valid, Boundary, Resting, RestingBut;
      FiredRest(def, before, st, id);
      if key !in st.ctl.tasks || st.ctl.tasks[key].generation != generation
         || !st.ctl.tasks[key].status.TaskRetrying? || st.ctl.tasks[key].attempt + 1 != attempt {
        RestingIsBoundary(def, st);
        return;
      }
      RetryDue(def, before, st, key);
      Reschedule(key, st.ctl.tasks[key].resume, st.ctl.tasks[key].resumedBy, generation, attempt);
    }

    /** A timeout timer fired; before is the state it fired in. */
    method TimeoutFired(id: nat, key: Key, generation: nat, attempt: nat, ghost before: State)
      requires Valid() && inherited == {} && Resting(def, before) && Fired(before, id)
      requires before.ctl.timers[id].TimeoutTimer? && before.ctl.timers[id].key == key
      requires before.ctl.timers[id].generation == generation && before.ctl.timers[id].attempt == attempt
      modifies this`st, this`out
      ensures Valid() && old(out) <= out && Boundary(def, st) && st.exec == old(st).exec && Fires(def, before, id, out)
    {
      hide Valid, Boundary, Resting, RestingBut, MaxAttempts, WithinBudget;
      FiredRest(def, before, st, id);
      if !IsCurrent(st.ctl, key, generation, attempt) {
        RestingIsBoundary(def, st);
        return;
      }
      TaskFailed(key, true, ReasonTimeout, map[]);
    }

    /** The timer of await node fired; before is the state it fired in. */
    method AwaitTimeout(id: nat, node: string, ghost before: State)
      requires Valid() && inherited == {} && Resting(def, before) && id in before.ctl.timers
      requires before.ctl.timers[id].AwaitTimer? && before.ctl.timers[id].node == node
      requires Running(st) && st.exec == before.exec && st.data == before.data
      requires st.ctl == before.ctl.(timers := before.ctl.timers - {id})
      modifies this`st, this`out
      ensures Valid() && old(out) <= out && Boundary(def, st) && st.exec == old(st).exec
      ensures if node in old(st).ctl.awaits && old(st).ctl.awaits[node].timer == id then
                && node in def.byId && First(old(out), OfWait(AwaitTimedOut(node, def.byId[node].onTimeout)))
                && (if def.byId[node].onTimeout == "" then FailedOf(ReasonAwaitTimeout)
                    else GoesOn(old(out), def.byId[node].onTimeout))
              else st == old(st) && out == old(out)
    {
      hide Valid, Boundary, Resting, OnAwait, AwaitClosed, Free, Numbered, DataOk, Shaped;
      if node !in st.ctl.awaits || st.ctl.awaits[node].timer != id {
        FiredRest(def, before, st, id);
        RestingIsBoundary(def, st);
        return;
      }
      AwaitDue(def, before, st, node);
      var n := def.byId[node];
      AwaitLeft(def, st.ctl, node);
      EmitWait(AwaitTimedOut(node, n.onTimeout));
      if n.onTimeout == "" {
        FreeParts(st.ctl);
        OkShaped(def, st.data);
        Fail(ReasonAwaitTimeout, node);
        FinishedIsBoundary(def, st);
      } else {
        Enter(n.onTimeout);
      }
    }

    // ---- Signals, children, updates ----

    /** An open await of the given signal name, if there is one. */
    method Awaiting(name: string) returns (found: Option<string>)
      ensures found.Some? ==> found.value in st.ctl.awaits && st.ctl.awaits[found.value].signal == name
      ensures found.None? ==> forall a | a in st.ctl.awaits :: st.ctl.awaits[a].signal != name
    {
      var rest := st.ctl.awaits.Keys;
      while rest != {}
        invariant rest <= st.ctl.awaits.Keys
        invariant forall a | a in st.ctl.awaits && a !in rest :: st.ctl.awaits[a].signal != name
      {
        var a :| a in rest;
        if st.ctl.awaits[a].signal == name {
          return Some(a);
        }
        rest := rest - {a};
      }
      return None;
    }

    /** Buffers a signal, and delivers it when an await of its name is open. */
    method ReceiveSignal(name: string, payload: Json)
      requires Valid() && inherited == {} && Resting(def, st) && out == []
      modifies this`st, this`out
      ensures Valid() && old(out) <= out && Boundary(def, st) && st.exec == old(st).exec
      ensures if cmdId in old(st).data.signalIds then st == old(st) && out == old(out)
              else First(old(out), OfWait(SignalReceived(name, cmdId, payload)))
    {
      hide Valid, Boundary, Resting, Numbered, Timed, DataOk;
      if cmdId in st.data.signalIds {
        RestingIsBoundary(def, st);
        return;
      }
      RestingRuns(def, st);
      EmitWait(SignalReceived(name, cmdId, payload));
      var a := Awaiting(name);
      if a.Some? {
        SignalDue(def, old(st), st, a.value);
        Consume(def.byId[a.value]);
        return;
      }
      SignalRest(def, old(st), st, name);
      RestingIsBoundary(def, st);
    }

    /** A child execution reported its end; a report about no open child is stale. */
    method ChildFinished(childId: ChildId, ok: bool, output: Json, counters: map<string, real>)
      requires Valid() && inherited == {} && Resting(def, st) && out == []
      modifies this`st, this`out
      ensures Valid() && old(out) <= out && Boundary(def, st) && st.exec == old(st).exec
      ensures if !HasChild(old(st).ctl, childId) then st == old(st) && out == old(out)
              else old(out) < out && Answers(def, old(st), cmdId, ChildDoneCmd(childId, ok, output, counters), out[|old(out)|].body)
    {
      hide Valid, Boundary, Resting, Accepted, Fixable, FailureOf, IsCurrent, Resumes, Fires, Sound;
      var rest := st.ctl.children.Keys;
      while rest != {}
        invariant rest <= st.ctl.children.Keys && st == old(st) && out == old(out)
        invariant forall k | k in st.ctl.children && k !in rest :: st.ctl.children[k].id != childId
      {
        var k :| k in rest;
        if st.ctl.children[k].id == childId {
          ChildSettles(k, ok, output, counters);
          return;
        }
        rest := rest - {k};
      }
      RestingIsBoundary(def, st);
    }

    method ChildSettles(k: Key, ok: bool, output: Json, counters: map<string, real>)
      requires Valid() && inherited == {} && Resting(def, st) && k in st.ctl.children && out == []
      modifies this`st, this`out
      ensures Valid() && old(out) < out && Boundary(def, st) && st.exec == old(st).exec
      ensures var ch := old(st).ctl.children[k];
              First(old(out), OfWait(ChildDone(k, ch.node, ch.id, ok, output, counters)))
    {
      hide Valid, Boundary, Held, Numbered, Timed, Quiet, StepsOk, DataOk, WithinBudget, ItemInRange, ChildInput, InBudget,
           Shaped, Justified;
      OpenChild(def, st.ctl, k);
      var ch := st.ctl.children[k];
      var n := def.byId[ch.node];
      var e := ChildDone(k, ch.node, ch.id, ok, output, counters);
      ChildData(def, st.data, st.ctl, e, now);
      hide WaitData, ChildSettled;
      EmitWait(e);
      var over := OverBudget(map[]);
      if over {
        ReportKids(old(st), st, k, ok, output);
        OverJustifies(def, out, st, ch.node);
        Fail(ReasonBudget, ch.node);
        FinishedIsBoundary(def, st);
        return;
      }
      InBudgetNow(def, st.data);
      ReportSteps(def, old(st), st, k, ok, output);
      hide Stepped, FailStepped, NodeKnown, Resting;
      assert NodeKnown(def, n.id) && def.byId[n.id] == n by { ChildNode(def, ch.node); }
      if ok {
        AfterSettle(ch.owner, n, "");
      } else {
        AfterFailure(ch.owner, n, ch.index, ReasonChild);
      }
    }

    /** An update: refused, known already, or an event that changes the channels. */
    method Update(writes: map<string, Json>) returns (error: Option<Error>)
      requires Valid() && Resting(def, st) && out == []
      modifies this`st, this`out
      ensures Valid() && old(out) <= out && Boundary(def, st) && st.exec == old(st).exec
      ensures error == Refused(def, old(st), cmdId, UpdateCmd(writes))
      ensures if error.Some? || cmdId in old(st).data.updateIds then st == old(st) && out == old(out)
              else First(old(out), OfNode(ChannelsUpdated(cmdId, writes)))
    {
      hide Valid, Boundary, Resting, Declared;
      error := None;
      RestingRuns(def, st);
      RestingIsBoundary(def, st);
      if |writes| == 0 {
        return Some(Invalid);
      }
      if cmdId in st.data.updateIds {
        return;
      }
      var ok := CheckWrites(writes);
      if !ok {
        return Some(Invalid);
      }
      EmitNode(ChannelsUpdated(cmdId, writes));
      UpdateRest(def, old(st), st, cmdId, writes, now);
      RestingIsBoundary(def, st);
    }

    // ---- Decisions ----

    method Start(flow: string, input: Json) returns (error: Option<Error>)
      requires Valid() && inherited == {} && out == [] && (st == New(st.exec) || Boundary(def, st))
      modifies this`st, this`out
      ensures Valid() && old(out) <= out && st.exec == old(st).exec
      ensures error == Refused(def, old(st), cmdId, StartCmd(flow, input))
      ensures if error.Some? || Exists(old(st)) then st == old(st) && out == old(out)
              else && Boundary(def, st)
                   && First(old(out), OfLife(Started(st.exec, def.name, if input.Null? then Obj(map[]) else input)))
    {
      hide Valid, Boundary, Ready;
      error := None;
      if Exists(st) {
        if st.flow != flow {
          error := Some(Conflict);
        }
        return;
      }
      if !input.Null? && !input.Obj? {
        return Some(Invalid);
      }
      BoundaryExists(def, st);
      StartReady(def, st, if input.Null? then Obj(map[]) else input, now);
      hide LifeStep;
      Emit(OfLife(Started(st.exec, def.name, if input.Null? then Obj(map[]) else input)));
      Enter(def.startId);
    }

    /** Decides command c. A command that is refused or ignored changes nothing; any other is recorded, and
        leaves the execution at rest or finished. */
    method Decide(c: Command) returns (error: Option<Error>)
      requires Valid() && inherited == {} && out == [] && (st == New(st.exec) || Boundary(def, st))
      modifies this`st, this`out
      ensures Valid() && st.exec == old(st).exec
      ensures error == Refused(def, old(st), cmdId, c)
      ensures out == [] <==> error.Some? || Ignored(old(st), cmdId, c)
      ensures if out == [] then st == old(st) else Boundary(def, st) && Answers(def, old(st), cmdId, c, out[0].body)
      ensures out != [] && c.TimerCmd? ==> Fires(def, old(st), c.timerId, out)
    {
      hide Valid, Boundary, Declared, IsCurrent, HasChild, Resumes, Finished, Fires;
      error := None;
      if c.StartCmd? {
        error := Start(c.flow, c.input);
        return;
      }
      if !Exists(st) {
        return Some(NotFound);
      }
      BoundaryLive(def, st);
      hide Resting;
      if Terminal(st.phase) {
        if c.UpdateCmd? {
          error := Some(Rejected);
        }
        return;
      }
      error := DecideLive(c);
    }

    /** Decides a command, other than a start, on a live execution. */
    method DecideLive(c: Command) returns (error: Option<Error>)
      requires Valid() && inherited == {} && out == [] && Resting(def, st) && st.phase.Live? && Exists(st) && !c.StartCmd?
      modifies this`st, this`out
      ensures Valid() && st.exec == old(st).exec
      ensures error == Refused(def, old(st), cmdId, c)
      ensures out == [] <==> error.Some? || Ignored(old(st), cmdId, c)
      ensures if out == [] then st == old(st) else Boundary(def, st) && Answers(def, old(st), cmdId, c, out[0].body)
      ensures out != [] && c.TimerCmd? ==> Fires(def, old(st), c.timerId, out)
    {
      hide Valid, Boundary, Declared, IsCurrent, HasChild, Resumes, Finished, Resting, Fires, Shaped;
      error := None;
      match c {
        case CompleteCmd(ref, output, writes, to, usage) => CompleteTask(ref, output, writes, to, usage);
        case FailCmd(ref, retryable, reason, usage) => FailTask(ref, retryable, reason, usage);
        case InterruptCmd(ref, payload, usage) => Interrupt(ref, payload, usage);
        case ResumeCmd(node, key, value, who) => Resume(node, key, value, who);
        case SignalCmd(name, validName, payload) =>
          if !validName {
            return Some(Invalid);
          }
          ReceiveSignal(name, payload);
        case CancelCmd(why) =>
          RestingRuns(def, st);
          Cancel(why);
          FinishedIsBoundary(def, st);
        case TimerCmd(timerId) => Timer(timerId);
        case ChildDoneCmd(childId, completed, output, counters) => ChildFinished(childId, completed, output, counters);
        case UpdateCmd(writes) => error := Update(writes);
      }
    }

    // ---- Forks ----

    /** Makes this execution, if it does not exist, a copy of state src with writes applied to its channels, in which
        nothing in flight is shared with the source. After an error the object is of no use. */
    method Fork(src: State, from: string, atSeq: nat, writes: map<string, Json>) returns (error: Option<Error>)
      requires Valid() && inherited == {} && out == [] && (st == New(st.exec) || Exists(st))
      requires !Exists(st) ==> Boundary(def, src) && src.exec != st.exec
      modifies this
      ensures Valid() && st.exec == old(st).exec
      ensures Exists(old(st)) ==> error.None? && st == old(st) && out == []
      ensures !Exists(old(st)) ==>
                error == if |writes| > 0 && (Terminal(src.phase) || !Declared(def, src.data, writes)) then Some(Invalid) else None
      ensures !Exists(old(st)) && error.None? ==>
                out != [] && Boundary(def, st) && First([], OfLife(Forked(st.exec, from, atSeq, src)))
      ensures !Exists(old(st)) && error.None? && Terminal(src.phase) ==> st.phase == src.phase && st.data == src.data
      ensures !Exists(old(st)) && error.None? && !Terminal(src.phase) ==>
                ForkOf(def, src, st, writes, cmdId, now) || (st.phase.ExecFailed? && src.ctl.children != map[])
    {
      hide Valid, Boundary, Finished, Resting, ForkOf, Declared, Edited, After, Guard, Forking, TasksCarried, ChildrenCarried,
           AwaitsAgain, DataOk, Written;
      error := None;
      if Exists(st) {
        return;
      }
      ForkedGuard(def, src, st.exec, from, atSeq);
      ForkedState(def, src, st.exec, from, atSeq, now);
      Emit(OfLife(Forked(st.exec, from, atSeq, src)));
      if |writes| > 0 {
        if Terminal(st.phase) {
          return Some(Invalid);
        }
        var ok := CheckWrites(writes);
        if !ok {
          return Some(Invalid);
        }
        ForkResting(def, src);
        EmitNode(ChannelsUpdated(cmdId, writes));
      }
      if Terminal(st.phase) {
        TerminalFinished(def, src);
        FinishedIsBoundary(def, st);
        return;
      }
      ForkResting(def, src);
      ForkBegins(def, src, st);
      assert st.data == Edited(def, src.data, writes, cmdId, now) by { EditedIs(def, src.data, src.ctl, writes, cmdId, now); }
      EditKeeps(def, src, writes, cmdId, now);
      Rekick(src);
      ForkEnds(def, src, st, writes, cmdId, now);
    }

    /** Replaces every task that is not interrupted, every await timer and every child of src by one of this execution. */
    method Rekick(ghost src: State)
      requires Valid() && inherited == {} && Running(st) && Resting(def, src) && src.exec != st.exec
      requires Forking(def, src.ctl, st.ctl) && TasksCarried(def, src.ctl, st.ctl, src.ctl.tasks.Keys)
      requires ChildrenCarried(st.exec, src.ctl, st.ctl.children, src.ctl.children.Keys)
      requires DataOk(def, st.data) && st.data.buffered == src.data.buffered && st.data.steps == src.data.steps
      modifies this
      ensures Valid() && old(out) <= out && st.exec == old(st).exec
      ensures if st.phase.Live? then
                && Resting(def, st) && st == old(st).(ctl := st.ctl, book := st.book)
                && Forking(def, src.ctl, st.ctl) && TasksCarried(def, src.ctl, st.ctl, {})
                && ChildrenCarried(st.exec, src.ctl, st.ctl.children, {}) && AwaitsAgain(src.ctl, st.ctl)
              else Finished(def, st) && st.phase.ExecFailed? && src.ctl.children != map[]
    {
      hide Valid, Forking, TasksCarried, ChildrenCarried, AwaitsAgain, DataOk, Resting, Finished;
      RekickTasks(src);
      RekickAwaits(src);
      RekickChildren(src);
      if st.phase.Live? {
        assert Reviving(def, src, st, {});
        RestingQuiet(def, src);
        ForkRests(def, src, st);
      }
    }

    method RekickTasks(ghost src: State)
      requires Valid() && Running(st) && Forking(def, src.ctl, st.ctl)
      requires TasksCarried(def, src.ctl, st.ctl, src.ctl.tasks.Keys) && DataOk(def, st.data)
      modifies this`st, this`out
      ensures Valid() && old(out) <= out && Running(st) && Forking(def, src.ctl, st.ctl)
      ensures TasksCarried(def, src.ctl, st.ctl, {})
      ensures st == old(st).(ctl := st.ctl, book := st.book)
      ensures st.ctl.children == old(st).ctl.children && st.ctl.awaits == old(st).ctl.awaits
    {
      hide Valid, Forking, DataOk, ScheduleControl, ScheduleGuard, InBudget, TaskCarried;
      BudgetKept(def, st.data);
      var rest := st.ctl.tasks.Keys;
      while rest != {}
        invariant Valid() && old(out) <= out && Running(st) && Forking(def, src.ctl, st.ctl)
        invariant rest <= st.ctl.tasks.Keys && TasksCarried(def, src.ctl, st.ctl, rest)
        invariant st == old(st).(ctl := st.ctl, book := st.book)
        invariant st.ctl.children == old(st).ctl.children && st.ctl.awaits == old(st).ctl.awaits
      {
        var k :| k in rest;
        var t := st.ctl.tasks[k];
        TaskUntouched(def, src.ctl, st.ctl, k, rest);
        if t.status.TaskInterrupted? {
          TaskStays(def, src.ctl, st.ctl, k, rest);
        } else {
          TaskRestarts(def, src.ctl, st.ctl, k, rest, now);
          hide TasksCarried;
          Schedule(def.byId[t.node], k, t.owner, t.index, t.item, t.resume, t.resumedBy, 0, 1);
        }
        rest := rest - {k};
      }
    }

    method RekickAwaits(ghost src: State)
      requires Valid() && inherited == {} && Running(st) && Resting(def, src) && Forking(def, src.ctl, st.ctl)
      requires TasksCarried(def, src.ctl, st.ctl, {}) && DataOk(def, st.data) && st.data.buffered == src.data.buffered
      modifies this`st, this`out
      ensures Valid() && old(out) <= out && Running(st) && Forking(def, src.ctl, st.ctl)
      ensures TasksCarried(def, src.ctl, st.ctl, {}) && AwaitsAgain(src.ctl, st.ctl)
      ensures st == old(st).(ctl := st.ctl, book := st.book) && st.ctl.children == old(st).ctl.children
    {
      hide Valid, Forking, TasksCarried, DataOk, Resting, AwaitControl, AwaitReady, RouteOk, Boundary, Sound;
      var rest := st.ctl.awaits.Keys;
      while rest != {}
        invariant Valid() && old(out) <= out && Running(st) && Forking(def, src.ctl, st.ctl)
        invariant TasksCarried(def, src.ctl, st.ctl, {})
        invariant st == old(st).(ctl := st.ctl, book := st.book) && st.ctl.children == old(st).ctl.children
        invariant if rest == {} then AwaitsAgain(src.ctl, st.ctl) else rest == st.ctl.awaits.Keys && st.ctl == old(st).ctl
      {
        var a :| a in rest;
        AwaitAgain(def, src.ctl, st.ctl, a, now);
        AwaitNumbered(def, src, st, a);
        hide AwaitsAgain;
        StartAwait(def.byId[a]);
        BoundaryExists(def, st);
        rest := rest - {a};
      }
    }

    method RekickChildren(ghost src: State)
      requires Valid() && inherited == {} && Running(st) && Resting(def, src) && src.exec != st.exec
      requires Forking(def, src.ctl, st.ctl) && TasksCarried(def, src.ctl, st.ctl, {}) && AwaitsAgain(src.ctl, st.ctl)
      requires ChildrenCarried(st.exec, src.ctl, st.ctl.children, src.ctl.children.Keys) && DataOk(def, st.data)
      modifies this
      ensures Valid() && old(out) <= out && st.exec == old(st).exec
      ensures if st.phase.Live? then Reviving(def, src, st, {}) && st == old(st).(ctl := st.ctl, book := st.book)
              else Finished(def, st) && st.phase.ExecFailed? && src.ctl.children != map[]
    {
      hide Valid, Forking, TasksCarried, ChildrenCarried, AwaitsAgain, DataOk, Resting, Finished, InBudget;
      BudgetKept(def, st.data);
      RestingRuns(def, src);
      inherited := set k | k in st.ctl.children :: st.ctl.children[k].id;
      InheritedKids(src, st, inherited);
      var rest := st.ctl.children.Keys;
      assert Reviving(def, src, st, rest);
      hide Reviving, OwnChildren;
      while rest != {}
        invariant Valid() && old(out) <= out && st == old(st).(ctl := st.ctl, book := st.book)
        invariant rest <= st.ctl.children.Keys == src.ctl.children.Keys && Reviving(def, src, st, rest) && Kids()
      {
        var k :| k in rest;
        RekickChild(src, k, rest);
        if Terminal(st.phase) {
          return;
        }
        rest := rest - {k};
      }
    }

    method RekickChild(ghost src: State, k: Key, ghost left: set<Key>)
      requires Valid() && Reviving(def, src, st, left) && k in left && k in st.ctl.children && Kids()
      requires DataOk(def, st.data)
      modifies this`st, this`out
      ensures Valid() && old(out) < out && st.exec == old(st).exec
      ensures if Terminal(st.phase) then Finished(def, st) && st.phase.ExecFailed?
              else && Reviving(def, src, st, left - {k}) && st == old(st).(ctl := st.ctl, book := st.book)
                   && Kids() && st.ctl.children.Keys == old(st).ctl.children.Keys
    {
      hide Valid, Forking, TasksCarried, ChildrenCarried, AwaitsAgain, Finished, ChildGuard, ChildControl, DataOk, Sound,
           OwnChildren;
      var c := st.ctl.children[k];
      var item := if c.owner in st.ctl.maps && c.index < |st.ctl.maps[c.owner].items| then
        st.ctl.maps[c.owner].items[c.index] else Null;
      ChildRevives(def, src, st, k, left);
      StartChild(def.byId[c.node], k, c.owner, c.index, item);
    }

    // ---- Continuing as new, aborting ----

    /** Continues the execution as new once its history was archived as segment: only its book changes. */
    method Continue(segment: Segment)
      requires Valid() && out == [] && (st == New(st.exec) || Boundary(def, st))
      modifies this`st, this`out
      ensures Valid()
      ensures if Exists(old(st)) && !Terminal(old(st).phase) then
                && out != [] && out[0].body.OfLife? && out[0].body.life.Continued? && out[0].body.life.segment == segment
                && Boundary(def, st) && st == old(st).(book := st.book)
                && st.book == old(st).book.(events := old(st).book.events + 1, base := old(st).book.events + 1,
                                            segments := old(st).book.segments + [segment])
              else st == old(st) && out == []
    {
      hide Valid, Boundary;
      if !Exists(st) || Terminal(st.phase) {
        return;
      }
      BoundaryLive(def, st);
      RestingRuns(def, st);
      var carried := st.(book := st.book.(segments := st.book.segments + [segment]));
      hide Resting;
      Emit(OfLife(Continued(carried, segment)));
      ContinuedRests(def, old(st), st);
    }

    /** Emits the failure of a live execution whatever it cancels. */
    method Record(failure: LifeEvent)
      requires Valid() && Running(st) && failure.ExecutionFailed? && failure.reason == ReasonDecisionTooLarge
      requires Shaped(def, st.data)
      modifies this`st, this`out
      ensures FoldAll(def, st0, out) == Some(st) && OneCause(out) && Finished(def, st) && st.exec == old(st).exec
      ensures |out| == |old(out)| + 1 && old(out) < out && Last(OfLife(failure)) && out[|old(out)|].index == old(st).book.events + 1
      ensures Valid() <==> failure.cancel == Cancellable(old(st))
    {
      hide FoldAll, Legal, Apply, Finished, Cancellable, Shaped;
      var ev := Stamp(st, OfLife(failure), now, cmdId);
      FailureRecorded(def, st0, out, st, ev);
      st := Apply(def, st, ev).value;
      out := out + [ev];
    }

    /** Emits the event that creates the execution. */
    method EmitFirst(first: LifeEvent)
      requires Valid() && out == [] && (first.Started? || first.Forked?) && LifeGuard(def, st, first)
      modifies this`st, this`out
      ensures Valid() && |out| == 1 && out[0].body == OfLife(first) && st == After(def, old(st), OfLife(first), now)
      ensures out[0].index == ExpectedIndex(old(st), OfLife(first))
    {
      hide Valid, LifeGuard, After, ExpectedIndex;
      Emit(OfLife(first));
    }

    /** The shortest decision that finishes the execution: its failure, after first if there is no execution yet. */
    method Abort(first: Option<LifeEvent>) returns (error: Option<Error>)
      requires Valid() && inherited == {} && out == [] && (st == New(st.exec) || Boundary(def, st))
      requires !Exists(st) && first.Some? ==> (first.value.Started? || first.value.Forked?) && LifeGuard(def, st, first.value)
      modifies this`st, this`out
      ensures error.Some? <==> !Exists(old(st)) && first.None?
      ensures error.Some? || (Exists(old(st)) && Terminal(old(st).phase)) ==> st == old(st) && out == []
      ensures error.None? ==> Finished(def, st) && FoldAll(def, st0, out) == Some(st) && st.exec == old(st).exec && OneCause(out)
      ensures error.None? && !(Exists(old(st)) && Terminal(old(st).phase)) ==>
                Aborted(old(st), first, out)
      ensures error.None? && !Exists(old(st)) ==> |out| > 0 && Legal(def, st0, out[..1])
      ensures error.None? ==> (Valid() <==> !AbortsFork(old(st), first))
    {
      hide Boundary, LifeGuard, Finished, Unclaimed, Cancellable, AbortsFork, Legal, FoldAll, OneCause, After, Follows, Shaped;
      error := None;
      if !Exists(st) {
        if first.None? {
          return Some(Invalid);
        }
        BoundaryExists(def, st);
        FirstLeaves(def, st, first.value, now);
        FirstShaped(def, st, first.value, now);
        EmitFirst(first.value);
      } else {
        BoundaryLive(def, st);
        TerminalFinished(def, st);
        NoneAborted(st, first);
        if !Terminal(st.phase) { RestingRuns(def, st); }
      }
      hide Resting;
      if Terminal(st.phase) {
        assert out[..|out|] == out;
        return;
      }
      ghost var before := out;
      var cancel := CancelChildren();
      Record(ExecutionFailed(ReasonDecisionTooLarge, "", cancel));
      assert out[..|before|] == before;
    }
  }
}
