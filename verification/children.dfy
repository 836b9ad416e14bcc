/** Child executions: every child a run starts is still open, reported once, cancelled once or abandoned. */
module Children {
  import opened Values
  import opened Flows
  import opened Fold
  import opened Invariants
  import opened Guards
  import opened Outcomes
  import opened Commands
  import opened Runs
  import opened Ledgers

  /** What may happen to a child. */
  datatype Fate = Begun | ReportedDone | NamedToCancel | Abandoned

  /** The children an event asks to cancel. */
  function CancelList(b: Body): set<ChildId> {
    match b
    case OfLife(e) => if e.ExecutionFailed? || e.ExecutionCancelled? then e.cancel else {}
    case OfGraph(e) => if e.JoinDone? || e.MapAborted? then e.cancel else {}
    case _ => {}
  }

  /** The event closes the execution, or the fan-out or map owner. */
  predicate Closing(b: Body, owner: string) {
    match b
    case OfLife(e) => e.ExecutionFailed? || e.ExecutionCancelled?
    case OfGraph(e) => (e.JoinDone? && e.fanout == owner) || (e.MapAborted? && e.node == owner)
    case _ => false
  }

  predicate Leaves(c: Control, b: Body, id: ChildId) {
    exists k | k in c.children :: c.children[k].id == id && c.children[k].abandon && Closing(b, c.children[k].owner)
  }

  /** Event b, folded with control part c, brings child id the given fate. */
  predicate Meets(c: Control, b: Body, id: ChildId, fate: Fate) {
    match fate
    case Begun => b.OfWait? && b.wait.ChildStarted? && b.wait.child.id == id
    case ReportedDone => b.OfWait? && b.wait.ChildDone? && b.wait.childId == id
    case NamedToCancel => id in CancelList(b)
    case Abandoned => Leaves(c, b, id)
  }

  function One(p: bool): nat { if p then 1 else 0 }

  /** How often child id met the given fate in a history. */
  ghost function Times(f: Flow, s0: State, evs: seq<Event>, id: ChildId, fate: Fate): nat {
    if |evs| == 0 then 0
    else
      var p := evs[..|evs| - 1];
      Times(f, s0, p, id, fate)
      + (if FoldAll(f, s0, p).Some? then One(Meets(FoldAll(f, s0, p).value.ctl, evs[|evs| - 1].body, id, fate)) else 0)
  }

  /** The open children before the event and the one it starts are those open after it and those that met their fate. */
  ghost predicate Balanced(c: Control, c': Control, b: Body, id: ChildId) {
    One(HasChild(c, id)) + One(Meets(c, b, id, Begun))
    == One(HasChild(c', id)) + One(Meets(c, b, id, ReportedDone)) + One(Meets(c, b, id, NamedToCancel)) + One(Meets(c, b, id, Abandoned))
  }

  /** The instance of an open child; ids are unique. */
  lemma OneInstance(c: Control, k: Key, id: ChildId)
    requires Numbered(c) && k in c.children && c.children[k].id == id
    ensures HasChild(c, id) && forall l | l in c.children && l != k :: c.children[l].id != id
  {
  }

  lemma LifeBalanced(f: Flow, s: State, e: LifeEvent, time: int, id: ChildId)
    requires Guard(f, s, OfLife(e)) && (e.Forked? ==> s == New(s.exec)) && Numbered(s.ctl) && id.parent == s.exec
    ensures Balanced(s.ctl, After(f, s, OfLife(e), time).ctl, OfLife(e), id)
  {
    hide After, Boundary, EnterGuard, FlowOutput;
    LifeControl(f, s, e, time);
    if e.Forked? { SourceKids(f, e.state); }
    if k :| k in s.ctl.children && s.ctl.children[k].id == id {
      OneInstance(s.ctl, k, id);
    }
    hide Numbered;
  }

  /** The children of a source are its own, and a fork's are others. */
  lemma SourceKids(f: Flow, s: State)
    requires Boundary(f, s)
    ensures OwnChildren(s) && Exists(s)
  {
    hide Held, Timed, Numbered, Quiet, StepsOk, DataOk;
  }

  lemma GraphBalanced(f: Flow, s: State, e: GraphEvent, id: ChildId)
    requires GraphGuard(f, s, e) && Numbered(s.ctl)
    ensures Balanced(s.ctl, GraphControl(s.ctl, e), OfGraph(e), id)
  {
    hide JoinGuard, JoinOutput, MapItems, Free, OwnChildren, NoTaskOf, NoChildOf;
    var c' := GraphControl(s.ctl, e);
    if k :| k in s.ctl.children && s.ctl.children[k].id == id {
      OneInstance(s.ctl, k, id);
      hide Numbered;
      if Closing(OfGraph(e), s.ctl.children[k].owner) {
        assert k !in c'.children && !HasChild(c', id);
      } else {
        assert k in c'.children && c'.children[k].id == id;
      }
    }
  }

  lemma BeginsBalanced(s: State, key: Key, child: Child, input: Json, id: ChildId)
    requires ChildGuard(s, key, child) && Numbered(s.ctl) && id.parent == s.exec
    ensures Balanced(s.ctl, WaitControl(s.ctl, ChildStarted(key, child, input)), OfWait(ChildStarted(key, child, input)), id)
  {
    hide StartsInOrder, ItemStarted;
    var c' := WaitControl(s.ctl, ChildStarted(key, child, input));
    if k :| k in s.ctl.children && s.ctl.children[k].id == id {
      assert k != key && c'.children[k].id == id;
    }
    assert key in c'.children;
  }

  lemma ReportsBalanced(c: Control, e: WaitEvent, id: ChildId)
    requires e.ChildDone? && e.key in c.children && c.children[e.key].id == e.childId && c.children[e.key].node == e.node
    requires Numbered(c)
    ensures Balanced(c, WaitControl(c, e), OfWait(e), id)
  {
    hide Marked, ItemDone, IsItem, ChildSettled, Numbered;
    var c' := WaitControl(c, e);
    ReportedShape(c, e.key, e.ok, e.output);
    OneInstance(c, e.key, e.childId);
    if k :| k in c.children && c.children[k].id == id && k != e.key {
      assert k in c'.children && c'.children[k].id == id;
    }
  }

  lemma WaitBalanced(f: Flow, s: State, e: WaitEvent, id: ChildId)
    requires WaitGuard(f, s, e) && Numbered(s.ctl) && id.parent == s.exec
    ensures Balanced(s.ctl, WaitControl(s.ctl, e), OfWait(e), id)
  {
    hide ChildGuard, InBudget, ItemInRange, Free, ChildSettled, ItemStarted, FirstNamed, ChildInput, Numbered;
    if e.ChildStarted? {
      BeginsBalanced(s, e.key, e.child, e.input, id);
    } else if e.ChildDone? {
      ReportsBalanced(s.ctl, e, id);
    } else {
      assert WaitControl(s.ctl, e).children == s.ctl.children;
    }
  }

  lemma StepBalanced(f: Flow, s: State, b: Body, time: int, id: ChildId)
    requires Guard(f, s, b) && (IsFork(b) ==> s == New(s.exec)) && Numbered(s.ctl) && id.parent == s.exec
    ensures Balanced(s.ctl, After(f, s, b, time).ctl, b, id) && After(f, s, b, time).exec == s.exec
  {
    hide After, NodeGuard, GraphGuard, WaitGuard, LifeGuard, NodeControl, GraphControl, WaitControl, Numbered;
    match b {
      case OfLife(e) =>
        LifeBalanced(f, s, e, time, id);
        if e.Forked? { ForkNamed(f, s, e, time); } else { LifeKeeps(f, s, e, time); }
      case OfNode(e) => WorkControl(f, s, b, time); NodeKeepsGone(s.ctl, e);
      case OfGraph(e) => WorkControl(f, s, b, time); GraphBalanced(f, s, e, id);
      case OfWait(e) => WorkControl(f, s, b, time); WaitBalanced(f, s, e, id);
    }
  }

  lemma ForkNamed(f: Flow, s: State, e: LifeEvent, time: int)
    requires Guard(f, s, OfLife(e)) && e.Forked? && s == New(s.exec)
    ensures After(f, s, OfLife(e), time).exec == s.exec
  {
    hide NodeGuard, GraphGuard, WaitGuard, Boundary;
    SourceKids(f, e.state);
  }

  /** Every child of the execution that was open or was started is exactly once still open, reported, cancelled or
      abandoned. */
  lemma {:induction false} ChildrenConserved(f: Flow, s0: State, evs: seq<Event>, id: ChildId)
    requires Legal(f, s0, evs) && Rooted(s0, evs) && Numbered(s0.ctl) && id.parent == s0.exec
    ensures FoldAll(f, s0, evs).Some? && FoldAll(f, s0, evs).value.exec == s0.exec
    ensures One(HasChild(s0.ctl, id)) + Times(f, s0, evs, id, Begun)
         == One(HasChild(FoldAll(f, s0, evs).value.ctl, id)) + Times(f, s0, evs, id, ReportedDone)
            + Times(f, s0, evs, id, NamedToCancel) + Times(f, s0, evs, id, Abandoned)
    decreases |evs|
  {
    hide Guard, Follows, After, Legal, HasChild, Meets, Numbered, Rooted;
    LegalFolds(f, s0, evs);
    if |evs| > 0 {
      var n := |evs| - 1;
      LegalPrefix(f, s0, evs, n);
      RootAt(f, s0, evs, n);
      ChildrenConserved(f, s0, evs[..n], id);
      LegalStep(f, s0, evs, n);
      AlwaysNumbered(f, s0, evs, n);
      assert evs[..n + 1] == evs;
      hide FoldAll;
      StepBalanced(f, At(f, s0, evs, n), evs[n].body, evs[n].time, id);
    }
  }

  lemma RootAt(f: Flow, s0: State, evs: seq<Event>, n: nat)
    requires Rooted(s0, evs) && n < |evs| && FoldAll(f, s0, evs[..n]).Some?
    ensures Rooted(s0, evs[..n]) && (IsFork(evs[n].body) ==> At(f, s0, evs, n) == New(s0.exec))
  {
    assert n == 0 ==> evs[..n] == [];
  }

  /** No child id is given twice. */
  lemma {:induction false} BegunOnce(f: Flow, s0: State, evs: seq<Event>, id: ChildId)
    requires Legal(f, s0, evs) && Rooted(s0, evs) && Numbered(s0.ctl) && 0 < id.n
    ensures FoldAll(f, s0, evs).Some?
    ensures One(id.n <= s0.ctl.n) + Times(f, s0, evs, id, Begun) <= One(id.n <= FoldAll(f, s0, evs).value.ctl.n)
    decreases |evs|
  {
    hide Guard, Follows, After, Legal, Meets, Numbered, Rooted;
    LegalFolds(f, s0, evs);
    if |evs| > 0 {
      var n := |evs| - 1;
      LegalPrefix(f, s0, evs, n);
      RootAt(f, s0, evs, n);
      BegunOnce(f, s0, evs[..n], id);
      LegalStep(f, s0, evs, n);
      assert evs[..n + 1] == evs;
      hide FoldAll;
      BeginsAbove(f, At(f, s0, evs, n), evs[n].body, evs[n].time, id);
    }
  }

  lemma BeginsAbove(f: Flow, s: State, b: Body, time: int, id: ChildId)
    requires Guard(f, s, b) && (IsFork(b) ==> s == New(s.exec))
    ensures s.ctl.n <= After(f, s, b, time).ctl.n
    ensures Meets(s.ctl, b, id, Begun) ==> s.ctl.n < id.n <= After(f, s, b, time).ctl.n
  {
    hide After, NodeGuard, GraphGuard, LifeGuard, NodeControl, GraphControl;
    match b {
      case OfLife(e) => LifeControl(f, s, e, time);
      case OfNode(e) => WorkControl(f, s, b, time); NodeKeepsGone(s.ctl, e);
      case OfGraph(e) => WorkControl(f, s, b, time); GraphKeepsGone(s.ctl, e);
      case OfWait(e) => WorkControl(f, s, b, time); WaitKeepsGone(f, s, e);
    }
  }

  /** A child started during a run has exactly one fate: it is open, was reported done, named in one cancel list, or
      abandoned by policy when its owner or parent closed. */
  lemma ChildFate(f: Flow, s0: State, evs: seq<Event>, id: ChildId)
    requires Legal(f, s0, evs) && Rooted(s0, evs) && Numbered(s0.ctl) && id.parent == s0.exec && 0 < id.n
    requires Times(f, s0, evs, id, Begun) > 0
    ensures FoldAll(f, s0, evs).Some?
    ensures Times(f, s0, evs, id, Begun) == 1
    ensures One(HasChild(FoldAll(f, s0, evs).value.ctl, id)) + Times(f, s0, evs, id, ReportedDone)
            + Times(f, s0, evs, id, NamedToCancel) + Times(f, s0, evs, id, Abandoned) == 1
  {
    hide Legal, Times, FoldAll;
    ChildrenConserved(f, s0, evs, id);
    BegunOnce(f, s0, evs, id);
    assert !HasChild(s0.ctl, id);
  }
}
