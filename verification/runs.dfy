/** Whole runs: what holds at every point of every legal history. */
module Runs {
  import opened Values
  import opened Flows
  import opened Fold
  import opened Invariants
  import opened Guards
  import opened Outcomes
  import opened Commands
  import opened Joins
  import opened Forks

  /** The state after the first i events of a history. */
  function At(f: Flow, s0: State, evs: seq<Event>, i: nat): State
    requires i <= |evs| && FoldAll(f, s0, evs[..i]).Some?
  {
    FoldAll(f, s0, evs[..i]).value
  }

  lemma {:induction false} LegalPrefix(f: Flow, s0: State, evs: seq<Event>, i: nat)
    requires Legal(f, s0, evs) && i <= |evs|
    ensures Legal(f, s0, evs[..i]) && FoldAll(f, s0, evs[..i]).Some?
    decreases |evs|
  {
    hide Guard, Follows, Timely, Apply, ExpectedIndex;
    if i == |evs| {
      assert evs[..i] == evs;
      LegalFolds(f, s0, evs);
    } else {
      var p := evs[..|evs| - 1];
      LegalPrefix(f, s0, p, i);
      assert p[..i] == evs[..i];
    }
  }

  /** Event i of a legal history is guarded where it is folded, and leads to the next state. */
  lemma LegalStep(f: Flow, s0: State, evs: seq<Event>, i: nat)
    requires Legal(f, s0, evs) && i < |evs|
    ensures FoldAll(f, s0, evs[..i]).Some? && FoldAll(f, s0, evs[..i + 1]).Some?
    ensures Guard(f, At(f, s0, evs, i), evs[i].body) && Follows(f, evs[..i], At(f, s0, evs, i), evs[i].body)
    ensures Timely(f, evs[i].time, evs[i].body)
    ensures At(f, s0, evs, i + 1) == After(f, At(f, s0, evs, i), evs[i].body, evs[i].time)
  {
    hide Guard, Follows, Timely, Foldable, BodyStep, ExpectedIndex, Counted;
    LegalPrefix(f, s0, evs, i);
    LegalPrefix(f, s0, evs, i + 1);
    var p := evs[..i + 1];
    assert p[..|p| - 1] == evs[..i];
    GuardFoldable(f, At(f, s0, evs, i), evs[i].body);
  }

  /** A history that forks at most in its first event, which then creates the execution. */
  predicate Rooted(s0: State, evs: seq<Event>) {
    ForksFirst(evs) && (|evs| > 0 && IsFork(evs[0].body) ==> s0 == New(s0.exec))
  }

  /** A history that goes back through its forks: each is forked from the very state it follows. */
  predicate Lineal(f: Flow, s0: State, evs: seq<Event>) {
    forall i :: 0 <= i < |evs| && evs[i].body.OfLife? && evs[i].body.life.Forked? ==>
      FoldAll(f, s0, evs[..i]) == Some(evs[i].body.life.state)
  }

  lemma LinealBefore(f: Flow, s0: State, evs: seq<Event>, n: nat)
    requires Lineal(f, s0, evs) && n <= |evs|
    ensures Lineal(f, s0, evs[..n])
  {
    hide FoldAll;
    forall i | 0 <= i < n ensures evs[..n][..i] == evs[..i] {}
  }

  // ---- The control part ----

  /** The control part after an event of the whole execution. */
  lemma LifeControl(f: Flow, s: State, e: LifeEvent, time: int)
    requires Guard(f, s, OfLife(e))
    ensures var c' := After(f, s, OfLife(e), time).ctl;
            match e
            case Forked(exec, _, _, state) => c' == state.ctl.(timers := map[]) && (s == state || s == New(exec))
            case ExecutionCompleted(_) => c' == ClosedControl(s.ctl)
            case ExecutionFailed(_, _, _) => c' == ClosedControl(s.ctl)
            case ExecutionCancelled(_, _) => c' == ClosedControl(s.ctl)
            case _ => c' == s.ctl
  {
    hide Boundary;
  }

  lemma WorkControl(f: Flow, s: State, b: Body, time: int)
    requires !b.OfLife?
    ensures After(f, s, b, time).ctl == ControlStep(s.ctl, b)
    ensures After(f, s, b, time).exec == s.exec && After(f, s, b, time).phase == s.phase
  {
    hide ControlStep, DataStep;
  }

  // ---- Attempts ----

  /** Attempt (generation, attempt) of instance k can never run again. */
  predicate Dead(c: Control, k: Key, generation: nat, attempt: nat) {
    && generation <= c.n
    && (k in c.tasks && c.tasks[k].generation == generation ==>
          attempt < c.tasks[k].attempt || (attempt == c.tasks[k].attempt && !c.tasks[k].status.TaskScheduled?))
  }

  predicate LiveOrDead(c: Control, k: Key, generation: nat, attempt: nat) {
    (IsCurrent(c, k, generation, attempt) && generation <= c.n) || Dead(c, k, generation, attempt)
  }

  lemma NodeKeepsDead(f: Flow, s: State, e: NodeEvent, k: Key, generation: nat, attempt: nat)
    requires NodeGuard(f, s, e) && LiveOrDead(s.ctl, k, generation, attempt)
    ensures LiveOrDead(NodeControl(s.ctl, e), k, generation, attempt)
    ensures Dead(s.ctl, k, generation, attempt) ==> Dead(NodeControl(s.ctl, e), k, generation, attempt)
  {
    hide Declared, ChoiceGuard, InBudget, StartsInOrder;
  }

  /** Events other than those of tasks leave every task as it is. */
  lemma GraphStep(c: Control, e: GraphEvent)
    ensures ControlStep(c, OfGraph(e)) == GraphControl(c, e)
    ensures GraphControl(c, e).tasks == c.tasks && GraphControl(c, e).n == c.n
  {
    hide WithoutChildren;
  }

  lemma WaitStep(c: Control, e: WaitEvent)
    ensures ControlStep(c, OfWait(e)) == WaitControl(c, e)
    ensures WaitControl(c, e).tasks == c.tasks && WaitControl(c, e).n >= c.n
  {
    hide Marked, ItemDone, ItemStarted, IsItem;
  }

  lemma StepKeepsDead(f: Flow, s: State, b: Body, time: int, k: Key, generation: nat, attempt: nat)
    requires Guard(f, s, b) && LiveOrDead(s.ctl, k, generation, attempt) && generation > 0
    ensures LiveOrDead(After(f, s, b, time).ctl, k, generation, attempt)
    ensures Dead(s.ctl, k, generation, attempt) ==> Dead(After(f, s, b, time).ctl, k, generation, attempt)
  {
    hide Boundary, NodeGuard, GraphGuard, WaitGuard, After, ControlStep;
    match b {
      case OfLife(e) => LifeControl(f, s, e, time);
      case OfNode(e) => WorkControl(f, s, b, time); NodeKeepsDead(f, s, e, k, generation, attempt); NodeStep(s.ctl, e);
      case OfGraph(e) => WorkControl(f, s, b, time); GraphStep(s.ctl, e);
      case OfWait(e) => WorkControl(f, s, b, time); WaitStep(s.ctl, e);
    }
  }

  lemma NodeStep(c: Control, e: NodeEvent)
    ensures ControlStep(c, OfNode(e)) == NodeControl(c, e)
  {
    hide NodeControl;
  }

  /** Once an attempt was scheduled it is live or dead ever after; once dead, it stays dead. */
  lemma {:induction false} DeadForever(f: Flow, s0: State, evs: seq<Event>, i: nat, j: nat, k: Key, generation: nat, attempt: nat)
    requires Legal(f, s0, evs) && i <= j <= |evs| && generation > 0
    requires FoldAll(f, s0, evs[..i]).Some? && LiveOrDead(At(f, s0, evs, i).ctl, k, generation, attempt)
    ensures FoldAll(f, s0, evs[..j]).Some? && LiveOrDead(At(f, s0, evs, j).ctl, k, generation, attempt)
    ensures Dead(At(f, s0, evs, i).ctl, k, generation, attempt) ==> Dead(At(f, s0, evs, j).ctl, k, generation, attempt)
    decreases j
  {
    hide Guard, Follows, Timely, After, FoldAll, Legal, LiveOrDead, Dead;
    if i < j {
      DeadForever(f, s0, evs, i, j - 1, k, generation, attempt);
      LegalStep(f, s0, evs, j - 1);
      StepKeepsDead(f, At(f, s0, evs, j - 1), evs[j - 1].body, evs[j - 1].time, k, generation, attempt);
    }
  }

  predicate Schedules(b: Body, k: Key, generation: nat, attempt: nat) {
    b.OfNode? && b.work.Scheduled? && b.work.key == k && b.work.generation == generation && b.work.attempt == attempt
  }

  /** The attempt completes or fails. */
  predicate Settles(b: Body, k: Key, generation: nat, attempt: nat) {
    && b.OfNode? && (b.work.NodeDone? || b.work.NodeFail?)
    && b.work.key == k && b.work.generation == generation && b.work.attempt == attempt
  }

  lemma ScheduledRuns(f: Flow, s: State, b: Body, time: int, k: Key, generation: nat, attempt: nat)
    requires Guard(f, s, b) && Schedules(b, k, generation, attempt)
    ensures !LiveOrDead(s.ctl, k, generation, attempt)
    ensures IsCurrent(After(f, s, b, time).ctl, k, generation, attempt) && generation <= After(f, s, b, time).ctl.n
  {
    WorkControl(f, s, b, time);
    hide StartsInOrder, InBudget, After;
  }

  lemma SettledDies(f: Flow, s: State, b: Body, time: int, k: Key, generation: nat, attempt: nat)
    requires Guard(f, s, b) && Settles(b, k, generation, attempt) && Numbered(s.ctl)
    ensures IsCurrent(s.ctl, k, generation, attempt) && generation > 0
    ensures Dead(After(f, s, b, time).ctl, k, generation, attempt)
  {
    hide After, Declared, ControlStep, Marked, ItemDone, LifeGuard, GraphGuard, WaitGuard, ItemInRange;
    WorkControl(f, s, b, time);
    NodeStep(s.ctl, b.work);
  }

  /** Every attempt is scheduled at most once in a whole run. */
  lemma ScheduledOnce(f: Flow, s0: State, evs: seq<Event>, i: nat, j: nat, k: Key, generation: nat, attempt: nat)
    requires Legal(f, s0, evs) && i < j < |evs| && generation > 0
    requires Schedules(evs[i].body, k, generation, attempt)
    ensures !Schedules(evs[j].body, k, generation, attempt)
  {
    hide Guard, Follows, Timely, After, FoldAll, Legal, Dead, IsCurrent;
    LegalStep(f, s0, evs, i);
    LegalStep(f, s0, evs, j);
    ScheduledRuns(f, At(f, s0, evs, i), evs[i].body, evs[i].time, k, generation, attempt);
    DeadForever(f, s0, evs, i + 1, j, k, generation, attempt);
    if Schedules(evs[j].body, k, generation, attempt) {
      ScheduledRuns(f, At(f, s0, evs, j), evs[j].body, evs[j].time, k, generation, attempt);
    }
  }

  /** Every attempt settles at most once, and is never scheduled again after it did. */
  lemma SettledOnce(f: Flow, s0: State, evs: seq<Event>, i: nat, j: nat, k: Key, generation: nat, attempt: nat)
    requires Legal(f, s0, evs) && Numbered(s0.ctl) && i < j < |evs| && Settles(evs[i].body, k, generation, attempt)
    ensures !Settles(evs[j].body, k, generation, attempt) && !Schedules(evs[j].body, k, generation, attempt)
  {
    hide Guard, Follows, Timely, After, FoldAll, Legal, Settles, Schedules, Numbered;
    LegalStep(f, s0, evs, i);
    LegalStep(f, s0, evs, j);
    AlwaysNumbered(f, s0, evs, i);
    AlwaysNumbered(f, s0, evs, j);
    SettledDies(f, At(f, s0, evs, i), evs[i].body, evs[i].time, k, generation, attempt);
    DeadForever(f, s0, evs, i + 1, j, k, generation, attempt);
    if Settles(evs[j].body, k, generation, attempt) {
      SettledDies(f, At(f, s0, evs, j), evs[j].body, evs[j].time, k, generation, attempt);
    }
    if Schedules(evs[j].body, k, generation, attempt) {
      ScheduledRuns(f, At(f, s0, evs, j), evs[j].body, evs[j].time, k, generation, attempt);
    }
  }

  /** Generations are numbered from 1. */
  lemma GenerationPositive(f: Flow, s0: State, evs: seq<Event>, i: nat)
    requires Legal(f, s0, evs) && Numbered(s0.ctl) && i < |evs| && evs[i].body.OfNode? && evs[i].body.work.Scheduled?
    ensures evs[i].body.work.generation > 0
  {
    hide FoldAll, Legal, Follows, After, StartsInOrder, InBudget;
    AlwaysNumbered(f, s0, evs, i);
    LegalStep(f, s0, evs, i);
  }

  // ---- Interrupts ----

  /** Generation generation of instance k is not running: it was interrupted, or is over. */
  predicate Parked(c: Control, k: Key, generation: nat) {
    generation <= c.n && (k in c.tasks && c.tasks[k].generation == generation ==> c.tasks[k].status.TaskInterrupted?)
  }

  /** The event schedules, settles or interrupts an attempt of this generation. */
  predicate Concerns(b: Body, k: Key, generation: nat) {
    && b.OfNode? && (b.work.Scheduled? || b.work.NodeDone? || b.work.NodeFail? || b.work.Interrupted?)
    && b.work.key == k && b.work.generation == generation
  }

  predicate Interrupts(b: Body, k: Key, generation: nat) { Concerns(b, k, generation) && b.work.Interrupted? }

  lemma NodeKeepsParked(f: Flow, s: State, e: NodeEvent, k: Key, generation: nat)
    requires NodeGuard(f, s, e) && Parked(s.ctl, k, generation)
    ensures Parked(NodeControl(s.ctl, e), k, generation) && !Concerns(OfNode(e), k, generation)
  {
    hide Declared, ChoiceGuard, InBudget, StartsInOrder;
  }

  lemma StepKeepsParked(f: Flow, s: State, b: Body, time: int, k: Key, generation: nat)
    requires Guard(f, s, b) && Parked(s.ctl, k, generation) && generation > 0
    ensures Parked(After(f, s, b, time).ctl, k, generation) && !Concerns(b, k, generation)
  {
    hide Boundary, NodeGuard, GraphGuard, WaitGuard, After, ControlStep;
    match b {
      case OfLife(e) => LifeControl(f, s, e, time);
      case OfNode(e) => WorkControl(f, s, b, time); NodeKeepsParked(f, s, e, k, generation); NodeStep(s.ctl, e);
      case OfGraph(e) => WorkControl(f, s, b, time); GraphStep(s.ctl, e);
      case OfWait(e) => WorkControl(f, s, b, time); WaitStep(s.ctl, e);
    }
  }

  lemma InterruptParks(f: Flow, s: State, b: Body, time: int, k: Key, generation: nat)
    requires Guard(f, s, b) && Interrupts(b, k, generation) && Numbered(s.ctl)
    ensures Parked(After(f, s, b, time).ctl, k, generation) && generation > 0
  {
    hide After, ControlStep, LifeGuard, GraphGuard, WaitGuard;
    WorkControl(f, s, b, time);
    NodeStep(s.ctl, b.work);
  }

  lemma {:induction false} ParkedForever(f: Flow, s0: State, evs: seq<Event>, i: nat, j: nat, k: Key, generation: nat)
    requires Legal(f, s0, evs) && i <= j <= |evs| && generation > 0
    requires FoldAll(f, s0, evs[..i]).Some? && Parked(At(f, s0, evs, i).ctl, k, generation)
    ensures FoldAll(f, s0, evs[..j]).Some? && Parked(At(f, s0, evs, j).ctl, k, generation)
    decreases j
  {
    hide Guard, Follows, Timely, After, FoldAll, Legal, Parked;
    if i < j {
      ParkedForever(f, s0, evs, i, j - 1, k, generation);
      LegalStep(f, s0, evs, j - 1);
      StepKeepsParked(f, At(f, s0, evs, j - 1), evs[j - 1].body, evs[j - 1].time, k, generation);
    }
  }

  /** An attempt that was interrupted neither completes nor fails later, nor is another of its generation ever scheduled. */
  lemma InterruptedOnce(f: Flow, s0: State, evs: seq<Event>, i: nat, j: nat, k: Key, generation: nat)
    requires Legal(f, s0, evs) && Numbered(s0.ctl) && i < j < |evs| && Interrupts(evs[i].body, k, generation)
    ensures !Concerns(evs[j].body, k, generation)
  {
    hide Guard, Follows, Timely, After, FoldAll, Legal, Interrupts, Concerns, Numbered, Parked;
    LegalStep(f, s0, evs, i);
    LegalStep(f, s0, evs, j);
    AlwaysNumbered(f, s0, evs, i);
    InterruptParks(f, At(f, s0, evs, i), evs[i].body, evs[i].time, k, generation);
    ParkedForever(f, s0, evs, i + 1, j, k, generation);
    StepKeepsParked(f, At(f, s0, evs, j), evs[j].body, evs[j].time, k, generation);
  }

  /** Suppressing a job at the head of the log loses no work: an attempt scheduled earlier that the state at the head
      does not show running is not running at any later point either. */
  lemma SuppressedForever(f: Flow, s0: State, evs: seq<Event>, i: nat, head: nat, later: nat,
                          k: Key, generation: nat, attempt: nat)
    requires Legal(f, s0, evs) && i < head <= later <= |evs| && generation > 0
    requires Schedules(evs[i].body, k, generation, attempt)
    ensures FoldAll(f, s0, evs[..head]).Some? && FoldAll(f, s0, evs[..later]).Some?
    ensures !IsCurrent(At(f, s0, evs, head).ctl, k, generation, attempt) ==>
              !IsCurrent(At(f, s0, evs, later).ctl, k, generation, attempt)
  {
    hide Guard, Follows, Timely, After, FoldAll, Legal;
    LegalStep(f, s0, evs, i);
    ScheduledRuns(f, At(f, s0, evs, i), evs[i].body, evs[i].time, k, generation, attempt);
    DeadForever(f, s0, evs, i + 1, head, k, generation, attempt);
    DeadForever(f, s0, evs, head, later, k, generation, attempt);
  }

  // ---- Numbers ----

  lemma NodeNumbered(f: Flow, s: State, e: NodeEvent)
    requires NodeGuard(f, s, e) && Numbered(s.ctl)
    ensures Numbered(NodeControl(s.ctl, e))
  {
    hide Declared, ChoiceGuard, InBudget, StartsInOrder, Marked, ItemDone, ItemStarted, ItemInRange;
  }

  lemma GraphNumbered(c: Control, e: GraphEvent)
    requires Numbered(c)
    ensures Numbered(GraphControl(c, e))
  {
  }

  lemma WaitNumbered(f: Flow, s: State, e: WaitEvent)
    requires WaitGuard(f, s, e) && Numbered(s.ctl)
    ensures Numbered(WaitControl(s.ctl, e))
  {
    hide InBudget, StartsInOrder, Marked, ItemDone, ItemStarted, ItemInRange, Free, ChildInput, FirstNamed, IsItem;
  }

  lemma SourceNumbered(f: Flow, s: State)
    requires Boundary(f, s)
    ensures Numbered(s.ctl)
  {
    hide Held, Timed, Quiet, StepsOk, DataOk;
  }

  lemma StepNumbered(f: Flow, s: State, b: Body, time: int)
    requires Guard(f, s, b) && Numbered(s.ctl)
    ensures Numbered(After(f, s, b, time).ctl)
  {
    hide Boundary, NodeGuard, GraphGuard, WaitGuard, After, NodeControl, GraphControl, WaitControl;
    match b {
      case OfLife(e) =>
        LifeControl(f, s, e, time);
        if e.Forked? { SourceNumbered(f, e.state); }
      case OfNode(e) => WorkControl(f, s, b, time); NodeNumbered(f, s, e);
      case OfGraph(e) => WorkControl(f, s, b, time); GraphNumbered(s.ctl, e);
      case OfWait(e) => WorkControl(f, s, b, time); WaitNumbered(f, s, e);
    }
  }

  lemma {:induction false} AlwaysNumbered(f: Flow, s0: State, evs: seq<Event>, i: nat)
    requires Legal(f, s0, evs) && Numbered(s0.ctl) && i <= |evs|
    ensures FoldAll(f, s0, evs[..i]).Some? && Numbered(At(f, s0, evs, i).ctl)
    decreases i
  {
    hide Guard, Follows, Timely, After, Legal, Numbered;
    if i == 0 {
      assert evs[..0] == [];
    } else {
      hide FoldAll;
      AlwaysNumbered(f, s0, evs, i - 1);
      LegalStep(f, s0, evs, i - 1);
      StepNumbered(f, At(f, s0, evs, i - 1), evs[i - 1].body, evs[i - 1].time);
    }
  }

  // ---- What events say ----

  /** A join settles with the verdict of its branches, and nothing the branches still pending might have done would have
      changed it. */
  lemma JoinVerdictStands(f: Flow, s0: State, evs: seq<Event>, i: nat, fin: map<string, BranchStatus>)
    requires Legal(f, s0, evs) && i < |evs| && evs[i].body.OfGraph? && evs[i].body.graph.JoinDone?
    requires FoldAll(f, s0, evs[..i]).Some?
    ensures var e := evs[i].body.graph;
            var s := At(f, s0, evs, i);
            && e.fanout in s.ctl.fans && e.fanout in f.byId && e.fanout in f.joinOf && f.joinOf[e.fanout] in f.byId
            && (var waits := WaitFor(f, e.fanout);
                var policy := f.byId[f.joinOf[e.fanout]].policy;
                Later(waits, s.ctl.fans[e.fanout].branches, fin) && AllSettled(waits, fin) ==>
                  e.ok == Reached(policy, waits, fin))
  {
    hide Follows, Timely, After, FoldAll, Legal, OwnChildren, NoTaskOf, JoinOutput, WaitFor, Later, AllSettled, Reached, Verdict;
    LegalStep(f, s0, evs, i);
    var e := evs[i].body.graph;
    var waits := WaitFor(f, e.fanout);
    var policy := f.byId[f.joinOf[e.fanout]].policy;
    var branches := At(f, s0, evs, i).ctl.fans[e.fanout].branches;
    if Later(waits, branches, fin) && AllSettled(waits, fin) {
      VerdictStable(policy, waits, branches, fin);
      VerdictFinal(policy, waits, fin);
    }
  }

  // ---- Ends ----

  lemma OnlyForked(f: Flow, s: State, b: Body)
    requires Guard(f, s, b) && Terminal(s.phase)
    ensures b.OfLife? && b.life.Forked?
  {
    hide Boundary, NodeGuard, GraphGuard, WaitGuard, EnterGuard, FlowOutput;
  }

  // ---- Commands delivered again ----

  /** Timer i was allocated and is not pending: it never will be. */
  predicate TimerGone(c: Control, i: nat) { 0 < i <= c.n && i !in c.timers }

  /** The child was started and is no longer open: it never will be. */
  predicate ChildGone(c: Control, id: ChildId) { 0 < id.n <= c.n && !HasChild(c, id) }

  lemma NodeKeepsGone(c: Control, e: NodeEvent)
    ensures NodeControl(c, e).timers == c.timers && NodeControl(c, e).children == c.children && NodeControl(c, e).n >= c.n
  {
    hide Marked, ItemDone, ItemStarted, IsItem;
  }

  lemma GraphKeepsGone(c: Control, e: GraphEvent)
    ensures var c' := GraphControl(c, e);
            && c'.timers == c.timers && c'.n == c.n
            && (forall k | k in c'.children :: k in c.children && c'.children[k] == c.children[k])
  {
  }

  lemma WaitKeepsGone(f: Flow, s: State, e: WaitEvent)
    requires WaitGuard(f, s, e)
    ensures var c' := WaitControl(s.ctl, e);
            && c'.n >= s.ctl.n
            && (forall i | i in c'.timers :: i in s.ctl.timers || i > s.ctl.n)
            && (forall k | k in c'.children ::
                  (k in s.ctl.children && c'.children[k] == s.ctl.children[k]) || c'.children[k].id.n > s.ctl.n)
  {
    hide Marked, ItemDone, ItemStarted, IsItem, StartsInOrder, InBudget, ItemInRange, ChildInput, FirstNamed, Free;
  }

  lemma StepKeepsGone(f: Flow, s: State, b: Body, time: int, i: nat, id: ChildId)
    requires Guard(f, s, b)
    ensures TimerGone(s.ctl, i) ==> TimerGone(After(f, s, b, time).ctl, i)
    ensures ChildGone(s.ctl, id) ==> ChildGone(After(f, s, b, time).ctl, id)
  {
    hide Boundary, NodeGuard, GraphGuard, WaitGuard, After, NodeControl, GraphControl, WaitControl;
    match b {
      case OfLife(e) => LifeControl(f, s, e, time);
      case OfNode(e) => WorkControl(f, s, b, time); NodeKeepsGone(s.ctl, e);
      case OfGraph(e) => WorkControl(f, s, b, time); GraphKeepsGone(s.ctl, e);
      case OfWait(e) => WorkControl(f, s, b, time); WaitKeepsGone(f, s, e);
    }
  }

  /** The command is about an attempt, timer or child that is over for good. */
  predicate Spent(c: Control, cmd: Command) {
    match cmd
    case CompleteCmd(r, _, _, _, _) => r.generation > 0 && Dead(c, r.key, r.generation, r.attempt)
    case FailCmd(r, _, _, _) => r.generation > 0 && Dead(c, r.key, r.generation, r.attempt)
    case InterruptCmd(r, _, _) => r.generation > 0 && Dead(c, r.key, r.generation, r.attempt)
    case TimerCmd(i) => TimerGone(c, i)
    case ChildDoneCmd(id, _, _, _) => ChildGone(c, id)
    case _ => false
  }

  /** The commands that name one attempt, timer or child. */
  predicate Once(cmd: Command) {
    cmd.CompleteCmd? || cmd.FailCmd? || cmd.InterruptCmd? || cmd.TimerCmd? || cmd.ChildDoneCmd?
  }

  lemma StepKeepsSpent(f: Flow, s: State, b: Body, time: int, cmd: Command)
    requires Guard(f, s, b) && Spent(s.ctl, cmd)
    ensures Spent(After(f, s, b, time).ctl, cmd)
  {
    hide Guard, After, Dead, TimerGone, ChildGone;
    match cmd {
      case CompleteCmd(r, _, _, _, _) => StepKeepsDead(f, s, b, time, r.key, r.generation, r.attempt);
      case FailCmd(r, _, _, _) => StepKeepsDead(f, s, b, time, r.key, r.generation, r.attempt);
      case InterruptCmd(r, _, _) => StepKeepsDead(f, s, b, time, r.key, r.generation, r.attempt);
      case TimerCmd(i) => StepKeepsGone(f, s, b, time, i, ChildId("", 0));
      case ChildDoneCmd(id, _, _, _) => StepKeepsGone(f, s, b, time, 0, id);
    }
  }

  lemma SpentIsIgnored(s: State, id: string, cmd: Command)
    requires Spent(s.ctl, cmd)
    ensures Ignored(s, id, cmd)
  {
  }

  /** The event that answers a command about an attempt ends that attempt. */
  lemma AnswerEnds(f: Flow, s: State, b: Body, time: int, r: TaskRef)
    requires Guard(f, s, b) && Numbered(s.ctl) && Refers(s.ctl, r)
    requires b.OfNode? && (b.work.NodeDone? || b.work.NodeFail? || b.work.Interrupted?) && b.work.key == r.key
    ensures r.generation > 0 && Dead(After(f, s, b, time).ctl, r.key, r.generation, r.attempt)
  {
    hide After, Declared, Marked, ItemDone, LifeGuard, GraphGuard, WaitGuard, ItemInRange, ControlStep;
    WorkControl(f, s, b, time);
    NodeStep(s.ctl, b.work);
  }

  lemma AnswerTakes(f: Flow, s: State, b: Body, time: int)
    requires Guard(f, s, b) && Numbered(s.ctl) && b.OfWait? && (b.wait.TimerFired? || b.wait.ChildDone?)
    ensures b.wait.TimerFired? ==> TimerGone(After(f, s, b, time).ctl, b.wait.timerId)
    ensures b.wait.ChildDone? ==> ChildGone(After(f, s, b, time).ctl, b.wait.childId)
  {
    hide After, Marked, ItemDone, LifeGuard, GraphGuard, NodeGuard, ItemInRange;
    WorkControl(f, s, b, time);
  }

  /** A command that took effect is spent. */
  lemma AnswerSpends(f: Flow, s: State, b: Body, time: int, id: string, cmd: Command)
    requires Guard(f, s, b) && Numbered(s.ctl) && Once(cmd) && !Ignored(s, id, cmd) && Answers(f, s, id, cmd, b)
    ensures Spent(After(f, s, b, time).ctl, cmd)
  {
    hide Guard, After, Dead, TimerGone, ChildGone, Numbered, Accepted, Fixable, Refers, HasChild;
    match cmd {
      case CompleteCmd(r, _, _, _, _) => AnswerEnds(f, s, b, time, r);
      case FailCmd(r, _, _, _) => AnswerEnds(f, s, b, time, r);
      case InterruptCmd(r, _, _) => AnswerEnds(f, s, b, time, r);
      case TimerCmd(i) => AnswerTakes(f, s, b, time);
      case ChildDoneCmd(_, _, _, _) => AnswerTakes(f, s, b, time);
    }
  }

  lemma {:induction false} SpentForever(f: Flow, s0: State, evs: seq<Event>, i: nat, j: nat, cmd: Command)
    requires Legal(f, s0, evs) && i <= j <= |evs|
    requires FoldAll(f, s0, evs[..i]).Some? && Spent(At(f, s0, evs, i).ctl, cmd)
    ensures FoldAll(f, s0, evs[..j]).Some? && Spent(At(f, s0, evs, j).ctl, cmd)
    decreases j
  {
    hide Guard, Follows, Timely, After, FoldAll, Legal, Spent;
    if i < j {
      SpentForever(f, s0, evs, i, j - 1, cmd);
      LegalStep(f, s0, evs, j - 1);
      StepKeepsSpent(f, At(f, s0, evs, j - 1), evs[j - 1].body, evs[j - 1].time, cmd);
    }
  }

  /** A complete, fail, interrupt, timer or child-done command that took effect at event i has nothing to do at any later
      point of the run, however often it is delivered. */
  lemma Idempotent(f: Flow, s0: State, evs: seq<Event>, i: nat, j: nat, id: string, cmd: Command)
    requires Legal(f, s0, evs) && Numbered(s0.ctl) && i < j <= |evs| && Once(cmd)
    requires FoldAll(f, s0, evs[..i]).Some? && !Ignored(At(f, s0, evs, i), id, cmd)
    requires Answers(f, At(f, s0, evs, i), id, cmd, evs[i].body)
    ensures FoldAll(f, s0, evs[..j]).Some? && Ignored(At(f, s0, evs, j), id, cmd)
  {
    hide Guard, Follows, Timely, After, FoldAll, Legal, Spent, Numbered, Ignored, Answers;
    LegalStep(f, s0, evs, i);
    AlwaysNumbered(f, s0, evs, i);
    AnswerSpends(f, At(f, s0, evs, i), evs[i].body, evs[i].time, id, cmd);
    SpentForever(f, s0, evs, i + 1, j, cmd);
    SpentIsIgnored(At(f, s0, evs, j), id, cmd);
  }

  // ---- Decisions ----

  /** The abort of an oversized fork of a live source with children to cancel: its failure names those children. */
  predicate Misaborted(s: State, evs: seq<Event>) {
    && |evs| == 2 && IsFork(evs[0].body)
    && AbortsFork(s, Some(evs[0].body.life)) && Aborted(s, Some(evs[0].body.life), evs)
  }

  /** Events evs are a decision taken in state s that leaves state t. */
  ghost predicate Decision(f: Flow, s: State, evs: seq<Event>, t: State) {
    && evs != [] && FoldAll(f, s, evs) == Some(t) && Boundary(f, t) && t.exec == s.exec
    && OneCause(evs) && ForksFirst(evs) && (Exists(s) ==> !IsFork(evs[0].body))
    && (Legal(f, s, evs) || (Misaborted(s, evs) && Legal(f, s, evs[..1])))
  }

  /** A run of execution exec: decisions one after another, with the states between them. */
  ghost predicate Run(f: Flow, exec: string, decisions: seq<seq<Event>>, states: seq<State>) {
    && |states| == |decisions| + 1 && states[0] == New(exec)
    && forall i :: 0 <= i < |decisions| ==> Decision(f, states[i], decisions[i], states[i + 1])
  }

  function Concat(decisions: seq<seq<Event>>): seq<Event> {
    if |decisions| == 0 then [] else Concat(decisions[..|decisions| - 1]) + decisions[|decisions| - 1]
  }

  /** Nothing is decided in a finished execution. */
  lemma NothingAfter(f: Flow, s: State, evs: seq<Event>, t: State)
    requires Exists(s) && Decision(f, s, evs, t)
    ensures !Terminal(s.phase) && Legal(f, s, evs)
  {
    hide Guard, Follows, Timely, Boundary, FoldAll;
    LegalStep(f, s, evs, 0);
    assert evs[..0] == [];
    StartOf(f, s);
    if Terminal(s.phase) { OnlyForked(f, s, evs[0].body); }
  }

  lemma StartOf(f: Flow, s: State)
    ensures FoldAll(f, s, []) == Some(s)
  {
  }

  lemma RunExists(f: Flow, exec: string, decisions: seq<seq<Event>>, states: seq<State>, i: nat)
    requires Run(f, exec, decisions, states) && i <= |decisions|
    ensures states[i].exec == exec && (Exists(states[i]) <==> i > 0) && (i > 0 ==> Boundary(f, states[i]))
    decreases i
  {
    hide Legal, FoldAll, Resting, Finished;
    if i > 0 {
      RunExists(f, exec, decisions, states, i - 1);
      assert Decision(f, states[i - 1], decisions[i - 1], states[i]);
      BoundaryExists(f, states[i]);
    }
  }

  /** An aborted fork that names children of its source is not legal. */
  lemma MisabortedIllegal(f: Flow, exec: string, evs: seq<Event>)
    requires Misaborted(New(exec), evs)
    ensures !Legal(f, New(exec), evs)
  {
    hide Follows, Timely, Boundary, FoldAll, After, NodeGuard, GraphGuard, WaitGuard, EnterGuard, FlowOutput, Unclaimed,
         Cancellable, AbortsFork;
    if Legal(f, New(exec), evs) {
      LegalStep(f, New(exec), evs, 0);
      LegalStep(f, New(exec), evs, 1);
      assert evs[..0] == [];
      StartOf(f, New(exec));
      FirstLeaves(f, New(exec), evs[0].body.life, evs[0].time);
    }
  }

  /** The events of a run fold to its last state, and are one legal history unless it is an aborted fork that names children
      of its source. */
  lemma {:induction false} RunIsLegal(f: Flow, exec: string, decisions: seq<seq<Event>>, states: seq<State>)
    requires Run(f, exec, decisions, states)
    ensures FoldAll(f, New(exec), Concat(decisions)) == Some(states[|decisions|]) && ForksFirst(Concat(decisions))
    ensures Legal(f, New(exec), Concat(decisions)) <==> !Misaborted(New(exec), Concat(decisions))
    ensures |decisions| > 0 ==> Concat(decisions) != []
    decreases |decisions|
  {
    hide Guard, Follows, Timely, Apply, ExpectedIndex, Boundary, Legal, Misaborted;
    if |decisions| == 0 {
      NothingDecided(f, exec);
    } else {
      var n := |decisions| - 1;
      assert Decision(f, states[n], decisions[n], states[n + 1]);
      RunIsLegal(f, exec, decisions[..n], states[..n + 1]);
      FoldAllConcat(f, New(exec), Concat(decisions[..n]), decisions[n]);
      RunExists(f, exec, decisions, states, n);
      hide FoldAll;
      if n == 0 {
        assert Concat(decisions) == decisions[0];
      } else {
        NothingAfter(f, states[n], decisions[n], states[n + 1]);
        if Misaborted(New(exec), Concat(decisions[..n])) { MisabortedEnds(f, exec, Concat(decisions[..n]), states[n]); }
        LegalConcat(f, New(exec), Concat(decisions[..n]), states[n], decisions[n]);
      }
      if Misaborted(New(exec), Concat(decisions)) { MisabortedIllegal(f, exec, Concat(decisions)); }
    }
  }

  lemma NothingDecided(f: Flow, exec: string)
    ensures Legal(f, New(exec), []) && !Misaborted(New(exec), [])
  {
  }

  lemma MisabortedEnds(f: Flow, exec: string, evs: seq<Event>, t: State)
    requires Misaborted(New(exec), evs) && FoldAll(f, New(exec), evs) == Some(t)
    ensures Terminal(t.phase)
  {
    hide Foldable, ExpectedIndex, AbortsFork, InFlight;
    assert evs[..1][..0] == [];
  }

  // ---- Positions ----

  /** Event i of a legal history carries the index its state expects. */
  lemma LegalIndex(f: Flow, s0: State, evs: seq<Event>, i: nat)
    requires Legal(f, s0, evs) && i < |evs|
    ensures FoldAll(f, s0, evs[..i]).Some? && evs[i].index == ExpectedIndex(At(f, s0, evs, i), evs[i].body)
  {
    hide Guard, Follows, Timely, Apply, ExpectedIndex;
    LegalPrefix(f, s0, evs, i + 1);
    assert evs[..i + 1][..i] == evs[..i];
  }

  /** The first event of an execution starts or forks it. */
  lemma FirstIsFirst(f: Flow, exec: string, b: Body)
    requires Guard(f, New(exec), b)
    ensures b.OfLife? && (b.life.Started? || b.life.Forked?)
  {
    hide Boundary, NodeGuard, GraphGuard, WaitGuard, EnterGuard;
  }

  lemma CountsOne(f: Flow, s: State, b: Body, time: int)
    requires Guard(f, s, b) && (b.OfLife? && b.life.Forked? ==> s.book.events == 0)
    ensures After(f, s, b, time).book.events == s.book.events + 1 && ExpectedIndex(s, b) == s.book.events + 1
  {
    hide Boundary, NodeGuard, GraphGuard, WaitGuard, EnterGuard, FlowOutput, DataStep, ControlStep;
  }

  /** The state after i events of an execution has counted i. */
  lemma {:induction false} Positions(f: Flow, exec: string, evs: seq<Event>, i: nat)
    requires Legal(f, New(exec), evs) && i <= |evs|
    requires forall j :: 0 < j < |evs| ==> !(evs[j].body.OfLife? && evs[j].body.life.Forked?)
    ensures FoldAll(f, New(exec), evs[..i]).Some? && At(f, New(exec), evs, i).book.events == i
    decreases i
  {
    hide Guard, Follows, Timely, After, Legal, ExpectedIndex;
    if i == 0 {
      assert evs[..0] == [];
    } else {
      hide FoldAll;
      Positions(f, exec, evs, i - 1);
      LegalStep(f, New(exec), evs, i - 1);
      CountsOne(f, At(f, New(exec), evs, i - 1), evs[i - 1].body, evs[i - 1].time);
    }
  }
}
