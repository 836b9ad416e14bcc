/** What is recorded of an execution, request by request, and what holds of every such record. */
module Trails {
  import opened Values
  import opened Flows
  import opened Fold
  import opened Invariants
  import opened Guards
  import opened Commands
  import opened Forks
  import opened Runs
  import opened Ledgers
  import opened Children
  import opened MapRuns

  /** What is asked of an execution: to decide a command, to be created as a fork of another execution, or to continue as
      new once a segment of its history was archived. */
  datatype Ask =
    | Issue(cmd: Command)
    | ForkFrom(from: string, at: nat, writes: map<string, Json>)
    | ContinueAs(segment: Segment)

  /** A stored decision: the request it answers, its events and the state they leave. */
  datatype Entry = Entry(id: string, ask: Ask, evs: seq<Event>, state: State)

  type Trail = seq<Entry>

  function DecisionsOf(trail: Trail): (d: seq<seq<Event>>)
    ensures |d| == |trail| && forall i :: 0 <= i < |trail| ==> d[i] == trail[i].evs
  {
    seq(|trail|, i requires 0 <= i < |trail| => trail[i].evs)
  }

  /** The states of an execution, from nothing on. */
  function StatesOf(exec: string, trail: Trail): (s: seq<State>)
    ensures |s| == |trail| + 1 && s[0] == New(exec) && forall i :: 0 < i <= |trail| ==> s[i] == trail[i - 1].state
  {
    seq(|trail| + 1, i requires 0 <= i <= |trail| => if i == 0 then New(exec) else trail[i - 1].state)
  }

  function Last(exec: string, trail: Trail): State { if |trail| == 0 then New(exec) else trail[|trail| - 1].state }

  /** All events of an execution. */
  function EventsOf(trail: Trail): seq<Event> { Concat(DecisionsOf(trail)) }

  // ---- Requests ----

  /** Why a request is declined, if it is; src is the state a fork is taken from. */
  function Declined(f: Flow, s: State, id: string, ask: Ask, src: Option<State>): Option<Error> {
    match ask
    case Issue(c) => Refused(f, s, id, c)
    case ForkFrom(_, _, writes) =>
      if Exists(s) then None
      else if src.None? then Some(Invalid)
      else if |writes| > 0 && (Terminal(src.value.phase) || !Declared(f, src.value.data, writes)) then Some(Invalid)
      else None
    case ContinueAs(_) => None
  }

  /** A request that is not declined and has nothing to do. */
  predicate Moot(s: State, id: string, ask: Ask) {
    match ask
    case Issue(c) => Ignored(s, id, c)
    case ForkFrom(_, _, _) => Exists(s)
    case ContinueAs(_) => !Exists(s) || Terminal(s.phase)
  }

  /** Event b is what a request that is neither declined nor moot records first. */
  predicate Replies(f: Flow, s: State, id: string, ask: Ask, src: Option<State>, b: Body) {
    match ask
    case Issue(c) => Answers(f, s, id, c, b)
    case ForkFrom(from, at, _) => src.Some? && b == OfLife(Forked(s.exec, from, at, src.value))
    case ContinueAs(segment) => b.OfLife? && b.life.Continued? && b.life.segment == segment
  }

  /** A stored decision was neither declined nor moot, and begins with what its request records, or ends the execution. */
  predicate Fitting(f: Flow, s: State, e: Entry) {
    && !Moot(s, e.id, e.ask) && (e.ask.Issue? ==> Refused(f, s, e.id, e.ask.cmd).None?) && e.evs != []
    && (Terminal(e.state.phase) || (e.ask.Issue? ==> Answers(f, s, e.id, e.ask.cmd, e.evs[0].body)))
  }

  ghost predicate TrailOk(f: Flow, exec: string, trail: Trail) {
    && Run(f, exec, DecisionsOf(trail), StatesOf(exec, trail))
    && forall i :: 0 <= i < |trail| ==> Fitting(f, StatesOf(exec, trail)[i], trail[i])
  }

  lemma TrailGrows(f: Flow, exec: string, trail: Trail, e: Entry)
    requires TrailOk(f, exec, trail) && Decision(f, Last(exec, trail), e.evs, e.state) && Fitting(f, Last(exec, trail), e)
    ensures TrailOk(f, exec, trail + [e])
    ensures EventsOf(trail + [e]) == EventsOf(trail) + e.evs
  {
    hide Decision, Fitting;
    var t := trail + [e];
    var n := |trail|;
    forall i | 0 <= i < |t|
      ensures Decision(f, StatesOf(exec, t)[i], DecisionsOf(t)[i], StatesOf(exec, t)[i + 1]) && Fitting(f, StatesOf(exec, t)[i], t[i])
    {
      if i < n {
        assert t[i] == trail[i] && StatesOf(exec, t)[i] == StatesOf(exec, trail)[i];
        assert Decision(f, StatesOf(exec, trail)[i], DecisionsOf(trail)[i], StatesOf(exec, trail)[i + 1]);
        assert Fitting(f, StatesOf(exec, trail)[i], trail[i]);
      }
    }
    assert DecisionsOf(t)[..n] == DecisionsOf(trail);
  }

  lemma Empty(f: Flow, exec: string)
    ensures TrailOk(f, exec, [])
  {
  }

  // ---- Never stuck ----

  function LooseTasks(c: Control): set<Key> { set k | k in c.tasks && c.tasks[k].owner == "" }

  function LooseChildren(c: Control): set<Key> { set k | k in c.children && c.children[k].owner == "" }

  predicate OwnerOpen(c: Control, owner: string) { owner == "" || owner in c.fans || owner in c.maps }

  /** Control is a single thread: exactly one of an unowned task, a fan-out, a map, an await and an unowned child is open,
      and what is owned belongs to that fan-out or map. */
  predicate SingleThread(c: Control) {
    && |LooseTasks(c)| + |c.fans| + |c.maps| + |c.awaits| + |LooseChildren(c)| == 1
    && (forall k | k in c.tasks :: OwnerOpen(c, c.tasks[k].owner))
    && (forall k | k in c.children :: OwnerOpen(c, c.children[k].owner))
  }

  /** Channels have their types and the node entries are bounded. A finished execution has nothing in flight; a live one
      is a single thread with work in flight, every wait has its timer, no await coexists with a signal for it, and no
      budget is exceeded. */
  ghost predicate Unstuck(f: Flow, s: State) {
    && Typed(f, s.data.channels) && StepsBounded(f, s.data.steps)
    && if Terminal(s.phase) then Free(s.ctl) && s.ctl.timers == map[]
       else
         && s.phase.Live? && (s.ctl.tasks != map[] || s.ctl.awaits != map[] || s.ctl.children != map[])
         && SingleThread(s.ctl) && Timed(f, s.ctl) && Quiet(s) && InBudget(f, s.data.counters)
  }

  lemma OneKey<K, V>(m: map<K, V>, k: K)
    requires m.Keys == {k}
    ensures |m| == 1 && m != map[]
  {
    assert |m.Keys| == 1;
  }

  lemma TaskThread(f: Flow, c: Control, node: string)
    requires OnTask(f, c, node)
    ensures SingleThread(c)
  {
    assert LooseTasks(c) == {Plain(node)};
  }

  lemma ChildThread(f: Flow, c: Control, node: string)
    requires OnChild(f, c, node)
    ensures SingleThread(c)
  {
    assert LooseChildren(c) == {Plain(node)};
  }

  lemma AwaitThread(f: Flow, c: Control, node: string)
    requires OnAwait(f, c, node)
    ensures SingleThread(c)
  {
    OneKey(c.awaits, node);
  }

  lemma FanThread(f: SoundFlow, c: Control, fan: string)
    requires FanOpen(f, c, fan)
    ensures SingleThread(c)
  {
    NamedNodes(f);
    hide Sound, InFan, BranchOpen;
    OneKey(c.fans, fan);
    assert LooseTasks(c) == {} && LooseChildren(c) == {};
  }

  lemma MapThread(f: SoundFlow, c: Control, m: string)
    requires MapOpen(f, c, m)
    ensures SingleThread(c)
  {
    NamedNodes(f);
    hide Sound, MapCounted;
    OneKey(c.maps, m);
    assert LooseTasks(c) == {} && LooseChildren(c) == {};
  }

  lemma HeldIsThread(f: SoundFlow, c: Control)
    requires Held(f, c)
    ensures SingleThread(c)
  {
    hide OnTask, OnChild, OnAwait, FanOpen, MapOpen, SingleThread, Sound, Undecided, MapBusy;
    if node :| OnTask(f, c, node) {
      TaskThread(f, c, node);
    } else if node :| OnChild(f, c, node) {
      ChildThread(f, c, node);
    } else if node :| OnAwait(f, c, node) {
      AwaitThread(f, c, node);
    } else if fan :| OnFan(f, c, fan) {
      FanThread(f, c, fan);
    } else {
      var m :| OnMap(f, c, m);
      MapThread(f, c, m);
    }
  }

  lemma BoundaryUnstuck(f: SoundFlow, s: State)
    requires Boundary(f, s)
    ensures Unstuck(f, s)
  {
    hide Held, Timed, Numbered, Quiet, StepsOk, SingleThread, Typed, InBudget, StepsBounded, OwnChildren, Sound;
    if !Terminal(s.phase) {
      NeverStuck(f, s);
      HeldIsThread(f, s.ctl);
    }
  }

  // ---- Laws of single events ----

  /** What every event b of an execution keeps to, given the events before it and the state s they leave. */
  ghost predicate Lawful(f: Flow, before: seq<Event>, s: State, b: Body) {
    && (before != [] ==> !Terminal(s.phase))
    && (b.OfNode? && b.work.Scheduled? ==> b.work.node in f.byId && 1 <= b.work.attempt <= MaxAttempts(f.byId[b.work.node]))
    && (b.OfLife? && b.life.Entered? && Free(s.ctl) ==> LedTo(f, before, b.life.node) && Enterable(f, b.life.node))
    && (b.OfLife? && b.life.ExecutionCompleted? ==> LedTo(f, before, "") && Free(s.ctl))
    && (b.OfLife? && b.life.ExecutionFailed? ==> Justified(f, before, s, b.life.reason, b.life.node))
    && (forall id | id in CancelList(b) :: id.parent == s.exec)
  }

  ghost predicate LawfulAt(f: Flow, exec: string, evs: seq<Event>, i: nat)
    requires i < |evs|
  {
    FoldAll(f, New(exec), evs[..i]).Some? && Lawful(f, evs[..i], At(f, New(exec), evs, i), evs[i].body)
  }

  lemma GuardLawful(f: Flow, before: seq<Event>, s: State, b: Body)
    requires Guard(f, s, b) && Follows(f, before, s, b) && (before != [] ==> !IsFork(b))
    ensures Lawful(f, before, s, b)
  {
    hide Boundary, NodeGuard, GraphGuard, WaitGuard, LedTo, Free, Enterable, Justified, FlowOutput;
    if Terminal(s.phase) { OnlyForked(f, s, b); }
    match b {
      case OfLife(e) =>
      case OfNode(e) => NodeLawful(f, s, e);
      case OfGraph(e) => GraphLawful(f, s, e);
      case OfWait(e) =>
    }
  }

  lemma NodeLawful(f: Flow, s: State, e: NodeEvent)
    requires NodeGuard(f, s, e)
    ensures e.Scheduled? ==> e.node in f.byId && 1 <= e.attempt <= MaxAttempts(f.byId[e.node])
  {
    hide Declared, ChoiceGuard, InBudget, StartsInOrder, ItemInRange;
  }

  lemma GraphLawful(f: Flow, s: State, e: GraphEvent)
    requires GraphGuard(f, s, e)
    ensures forall id | id in CancelList(OfGraph(e)) :: id.parent == s.exec
  {
    hide JoinGuard, JoinOutput, MapItems, Free, NoTaskOf, NoChildOf;
  }

  lemma AllLawful(f: Flow, exec: string, evs: seq<Event>, i: nat)
    requires Legal(f, New(exec), evs) && ForksFirst(evs) && i < |evs|
    ensures LawfulAt(f, exec, evs, i)
  {
    hide Guard, Follows, Timely, After, FoldAll, Legal, Lawful;
    LegalStep(f, New(exec), evs, i);
    GuardLawful(f, evs[..i], At(f, New(exec), evs, i), evs[i].body);
  }

  // ---- Once only ----

  predicate SameAttempt(a: Body, b: Body) {
    && a.OfNode? && b.OfNode?
    && (a.work.Scheduled? || a.work.NodeDone? || a.work.NodeFail?) && (b.work.Scheduled? || b.work.NodeDone? || b.work.NodeFail?)
    && a.work.key == b.work.key && a.work.generation == b.work.generation && a.work.attempt == b.work.attempt
  }

  predicate EndsAttempt(b: Body) { b.OfNode? && (b.work.NodeDone? || b.work.NodeFail?) }

  /** The two events are of the same generation of an instance, and the first one interrupts it. */
  predicate AfterInterrupt(a: Body, b: Body) {
    a.OfNode? && a.work.Interrupted? && Concerns(b, a.work.key, a.work.generation)
  }

  /** No attempt is scheduled twice, settled twice, or scheduled once it settled; and an attempt that was interrupted is
      the last of its generation, and does not settle. */
  predicate AttemptsOnce(evs: seq<Event>) {
    && (forall i, j :: 0 <= i < j < |evs| && SameAttempt(evs[i].body, evs[j].body) ==>
          !EndsAttempt(evs[i].body) && EndsAttempt(evs[j].body))
    && (forall i, j :: 0 <= i < j < |evs| ==> !AfterInterrupt(evs[i].body, evs[j].body))
  }

  lemma OnceOnly(f: Flow, exec: string, evs: seq<Event>)
    requires Legal(f, New(exec), evs)
    ensures AttemptsOnce(evs)
  {
    hide Legal;
    forall i, j | 0 <= i < j < |evs| && SameAttempt(evs[i].body, evs[j].body)
      ensures !EndsAttempt(evs[i].body) && EndsAttempt(evs[j].body)
    {
      var w := evs[i].body.work;
      if EndsAttempt(evs[i].body) {
        SettledOnce(f, New(exec), evs, i, j, w.key, w.generation, w.attempt);
      } else {
        GenerationPositive(f, New(exec), evs, i);
        ScheduledOnce(f, New(exec), evs, i, j, w.key, w.generation, w.attempt);
      }
    }
    forall i, j | 0 <= i < j < |evs| ensures !AfterInterrupt(evs[i].body, evs[j].body) {
      if AfterInterrupt(evs[i].body, evs[j].body) {
        InterruptedOnce(f, New(exec), evs, i, j, evs[i].body.work.key, evs[i].body.work.generation);
      }
    }
  }

  /** Every child the execution started is open, was reported done once, was named in one cancel list, or was abandoned by
      policy when its owner or the execution closed; and only one of these. */
  ghost predicate OneFate(f: Flow, exec: string, evs: seq<Event>, id: ChildId) {
    id.parent == exec && Times(f, New(exec), evs, id, Begun) > 0 ==>
      && FoldAll(f, New(exec), evs).Some? && Times(f, New(exec), evs, id, Begun) == 1
      && One(HasChild(FoldAll(f, New(exec), evs).value.ctl, id)) + Times(f, New(exec), evs, id, ReportedDone)
         + Times(f, New(exec), evs, id, NamedToCancel) + Times(f, New(exec), evs, id, Abandoned) == 1
  }

  lemma FateOfAll(f: Flow, exec: string, evs: seq<Event>, id: ChildId)
    requires Legal(f, New(exec), evs) && ForksFirst(evs) && evs != []
    ensures OneFate(f, exec, evs, id)
  {
    hide Legal, FoldAll, Times;
    if id.parent == exec && Times(f, New(exec), evs, id, Begun) > 0 {
      NumberedFrom1(f, exec, evs, id);
      ChildFate(f, New(exec), evs, id);
    }
  }

  lemma {:induction false} NumberedFrom1(f: Flow, exec: string, evs: seq<Event>, id: ChildId)
    requires Legal(f, New(exec), evs) && Times(f, New(exec), evs, id, Begun) > 0
    ensures id.n > 0
    decreases |evs|
  {
    hide Follows, Timely, After, LifeGuard, NodeGuard, GraphGuard, InBudget, StartsInOrder, ChildInput;
    var n := |evs| - 1;
    if Times(f, New(exec), evs[..n], id, Begun) > 0 {
      NumberedFrom1(f, exec, evs[..n], id);
    }
  }

  // ---- Delivered again ----

  /** A complete, fail, interrupt, timer or child-done command that was stored has nothing to do at any later point. */
  ghost predicate NotAgain(exec: string, trail: Trail) {
    forall i, j :: 0 <= i < j <= |trail| && trail[i].ask.Issue? && Once(trail[i].ask.cmd) ==>
      Ignored(StatesOf(exec, trail)[j], trail[i].id, trail[i].ask.cmd)
  }

  lemma RunBefore(f: Flow, exec: string, trail: Trail, j: nat)
    requires TrailOk(f, exec, trail) && j <= |trail|
    ensures TrailOk(f, exec, trail[..j]) && Last(exec, trail[..j]) == StatesOf(exec, trail)[j]
  {
    hide Decision, Fitting;
    var t := trail[..j];
    forall i | 0 <= i < j
      ensures Decision(f, StatesOf(exec, t)[i], DecisionsOf(t)[i], StatesOf(exec, t)[i + 1]) && Fitting(f, StatesOf(exec, t)[i], t[i])
    {
      assert Decision(f, StatesOf(exec, trail)[i], DecisionsOf(trail)[i], StatesOf(exec, trail)[i + 1]);
      assert Fitting(f, StatesOf(exec, trail)[i], trail[i]);
    }
  }

  lemma {:induction false} EventsBefore(trail: Trail, i: nat)
    requires i <= |trail|
    ensures EventsOf(trail[..i]) <= EventsOf(trail)
    ensures i < |trail| && trail[i].evs != [] ==>
              |EventsOf(trail[..i])| < |EventsOf(trail)| && EventsOf(trail)[|EventsOf(trail[..i])|] == trail[i].evs[0]
    decreases |trail|
  {
    var n := |trail| - 1;
    if i == |trail| {
      assert trail[..i] == trail;
    } else {
      var p := trail[..n];
      assert DecisionsOf(trail)[..n] == DecisionsOf(p);
      assert p[..i] == trail[..i];
      EventsBefore(p, i);
    }
  }

  /** A trail whose last state is live is one legal history. */
  lemma LiveIsLegal(f: Flow, exec: string, trail: Trail)
    requires TrailOk(f, exec, trail) && !Terminal(Last(exec, trail).phase)
    ensures Legal(f, New(exec), EventsOf(trail)) && FoldAll(f, New(exec), EventsOf(trail)) == Some(Last(exec, trail))
  {
    hide Run, Legal, FoldAll, Misaborted;
    RunIsLegal(f, exec, DecisionsOf(trail), StatesOf(exec, trail));
    if Misaborted(New(exec), EventsOf(trail)) { MisabortedEnds(f, exec, EventsOf(trail), Last(exec, trail)); }
  }

  lemma IgnoredLater(f: Flow, exec: string, trail: Trail, i: nat)
    requires TrailOk(f, exec, trail) && i < |trail| && trail[i].ask.Issue? && Once(trail[i].ask.cmd)
    ensures Ignored(Last(exec, trail), trail[i].id, trail[i].ask.cmd)
  {
    hide Legal, FoldAll, Answers, Decision, TrailOk, Terminal, Once;
    var last := Last(exec, trail);
    LastExists(f, exec, trail);
    if !Terminal(last.phase) {
      LiveIsLegal(f, exec, trail);
      RunBefore(f, exec, trail, i);
      RunBefore(f, exec, trail, i + 1);
      LiveBefore(f, exec, trail, i + 1);
      LiveBefore(f, exec, trail, i);
      FitsAt(f, exec, trail, i);
      LiveIsLegal(f, exec, trail[..i]);
      EventsBefore(trail, i);
      var evs, p := EventsOf(trail), |EventsOf(trail[..i])|;
      assert evs[..p] == EventsOf(trail[..i]) && evs[..|evs|] == evs;
      Idempotent(f, New(exec), evs, p, |evs|, trail[i].id, trail[i].ask.cmd);
    } else {
      FinishedIgnores(last, trail[i].id, trail[i].ask.cmd);
    }
  }

  lemma FinishedIgnores(s: State, id: string, c: Command)
    requires Exists(s) && Terminal(s.phase)
    ensures Ignored(s, id, c)
  {
  }

  lemma FitsAt(f: Flow, exec: string, trail: Trail, i: nat)
    requires TrailOk(f, exec, trail) && i < |trail|
    ensures Fitting(f, StatesOf(exec, trail)[i], trail[i])
  {
    hide Run, Fitting;
  }

  lemma LastExists(f: Flow, exec: string, trail: Trail)
    requires TrailOk(f, exec, trail)
    ensures Last(exec, trail).exec == exec
    ensures |trail| > 0 ==> Exists(Last(exec, trail)) && Boundary(f, Last(exec, trail))
  {
    hide Run, Boundary, Fitting;
    RunExists(f, exec, DecisionsOf(trail), StatesOf(exec, trail), |trail|);
  }

  /** What is live was live all along. */
  lemma {:induction false} LiveBefore(f: Flow, exec: string, trail: Trail, i: nat)
    requires TrailOk(f, exec, trail) && i <= |trail| && !Terminal(Last(exec, trail).phase)
    ensures !Terminal(StatesOf(exec, trail)[i].phase)
    decreases |trail| - i
  {
    hide Legal, FoldAll, Boundary, Fitting;
    if i < |trail| {
      LiveBefore(f, exec, trail, i + 1);
      if i > 0 {
        RunExists(f, exec, DecisionsOf(trail), StatesOf(exec, trail), i);
        assert Decision(f, StatesOf(exec, trail)[i], DecisionsOf(trail)[i], StatesOf(exec, trail)[i + 1]);
        NothingAfter(f, StatesOf(exec, trail)[i], DecisionsOf(trail)[i], StatesOf(exec, trail)[i + 1]);
      }
    }
  }

  lemma Redelivered(f: Flow, exec: string, trail: Trail)
    requires TrailOk(f, exec, trail)
    ensures NotAgain(exec, trail)
  {
    hide TrailOk, Ignored, Once;
    forall i, j | 0 <= i < j <= |trail| && trail[i].ask.Issue? && Once(trail[i].ask.cmd)
      ensures Ignored(StatesOf(exec, trail)[j], trail[i].id, trail[i].ask.cmd)
    {
      RunBefore(f, exec, trail, j);
      IgnoredLater(f, exec, trail[..j], i);
    }
  }

  // ---- Descent ----

  /** The line of an execution, its own events after those of what it was forked from, leads from nothing to state s. */
  ghost predicate Descends(f: Flow, root: string, line: seq<Event>, s: State) {
    Legal(f, New(root), line) && Lineal(f, New(root), line) && FoldAll(f, New(root), line) == Some(s)
  }

  /** The fork of a finished execution, or an aborted fork that names children of its source: nothing more happens in it. */
  predicate Inert(exec: string, trail: Trail) {
    && |trail| == 1
    && (var evs := trail[0].evs;
        Misaborted(New(exec), evs) || (|evs| == 1 && IsFork(evs[0].body) && Terminal(evs[0].body.life.state.phase)))
  }

  /** When a map completes in a line, every item has completed and its result is their outputs in item order. */
  ghost predicate ResultAt(f: Flow, root: string, line: seq<Event>, n: nat)
    requires n < |line|
  {
    line[n].body.OfGraph? && line[n].body.graph.MapCompleted? ==>
      var m := line[n].body.graph.node;
      var outs := Outputs(line[..n], m);
      && FoldAll(f, New(root), line[..n]).Some? && FoldAll(f, New(root), line[..n + 1]).Some?
      && m in At(f, New(root), line, n).ctl.maps
      && (var items := At(f, New(root), line, n).ctl.maps[m].items;
          && outs.Keys == UpTo(|items|) && m in At(f, New(root), line, n + 1).data.results
          && At(f, New(root), line, n + 1).data.results[m] == Arr(seq(|items|, i requires 0 <= i < |items| => outs[i])))
  }

  predicate ItemOnceAt(line: seq<Event>, n: nat)
    requires n < |line|
  {
    ItemOf(line[n].body).Some? ==> ItemOf(line[n].body).value.index !in Outputs(line[..n], ItemOf(line[n].body).value.node)
  }

  /** What a line accounts for: all usage, all signals unless an id was used again while it was buffered, and the items of
      all maps. */
  ghost predicate Accounted(f: Flow, root: string, line: seq<Event>, s: State) {
    && (forall k :: Get(s.data.counters, k, 0.0) == Used(line, k))
    && ((forall name :: Conserved(f, New(root), line, name)) <==> Straight(f, New(root), line))
    && (forall n :: 0 <= n < |line| ==> ItemOnceAt(line, n) && ResultAt(f, root, line, n))
    && (forall m | m in s.ctl.maps :: ItemsOpen(s.ctl, m, Outputs(line, m)))
  }

  lemma LineAccounts(f: Flow, root: string, line: seq<Event>, s: State)
    requires Descends(f, root, line, s) && (line != [] ==> Boundary(f, s))
    ensures Accounted(f, root, line, s)
  {
    hide Legal, Lineal, FoldAll, Conserved, Straight, ItemOnceAt, ResultAt, ItemsOpen, Boundary, Used;
    forall k ensures Get(s.data.counters, k, 0.0) == Used(line, k) { CountersConserved(f, New(root), line, k); }
    SignalsConserved(f, New(root), line);
    forall n | 0 <= n < |line| ensures ItemOnceAt(line, n) && ResultAt(f, root, line, n) { ItemsAt(f, root, line, n); }
    forall m | m in s.ctl.maps ensures ItemsOpen(s.ctl, m, Outputs(line, m)) {
      if line == [] { StartOf(f, New(root)); } else { OpenItems(f, New(root), line, m); }
    }
  }

  lemma ItemsAt(f: Flow, root: string, line: seq<Event>, n: nat)
    requires Legal(f, New(root), line) && Lineal(f, New(root), line) && n < |line|
    ensures ItemOnceAt(line, n) && ResultAt(f, root, line, n)
  {
    hide Legal, Lineal, FoldAll, Outputs, UpTo;
    if ItemOf(line[n].body).Some? { CompletesOnce(f, New(root), line, n); }
    if line[n].body.OfGraph? && line[n].body.graph.MapCompleted? { MapResult(f, New(root), line, n); }
  }

  // ---- How lines grow ----

  lemma LinealConcat(f: Flow, s0: State, a: seq<Event>, b: seq<Event>)
    requires Lineal(f, s0, a) && ForksFirst(b)
    requires b != [] && IsFork(b[0].body) ==> FoldAll(f, s0, a) == Some(b[0].body.life.state)
    ensures Lineal(f, s0, a + b)
  {
    hide FoldAll;
    forall i | 0 <= i < |a + b| && (a + b)[i].body.OfLife? && (a + b)[i].body.life.Forked?
      ensures FoldAll(f, s0, (a + b)[..i]) == Some((a + b)[i].body.life.state)
    {
      if i < |a| {
        assert (a + b)[..i] == a[..i];
      } else {
        assert (a + b)[i] == b[i - |a|] && i == |a|;
        assert (a + b)[..i] == a;
      }
    }
  }

  /** A decision extends a line. */
  lemma LineGrows(f: Flow, root: string, line: seq<Event>, s: State, evs: seq<Event>, t: State)
    requires Descends(f, root, line, s) && Legal(f, s, evs) && FoldAll(f, s, evs) == Some(t) && ForksFirst(evs)
    requires evs != [] && IsFork(evs[0].body) ==> evs[0].body.life.state == s
    ensures Descends(f, root, line + evs, t)
  {
    hide Legal, Lineal, FoldAll;
    LegalConcat(f, New(root), line, s, evs);
    FoldAllConcat(f, New(root), line, evs);
    LinealConcat(f, New(root), line, evs);
  }

  lemma LineBefore(f: Flow, root: string, line: seq<Event>, s: State, n: nat, t: State)
    requires Descends(f, root, line, s) && n <= |line| && FoldAll(f, New(root), line[..n]) == Some(t)
    ensures Descends(f, root, line[..n], t)
  {
    hide Legal, Lineal, FoldAll;
    LegalPrefix(f, New(root), line, n);
    LinealBefore(f, New(root), line, n);
  }

  /** The events of a fork are as legal on its source as on nothing. */
  lemma {:induction false} OnSource(f: Flow, exec: string, evs: seq<Event>, src: State)
    requires Legal(f, New(exec), evs) && evs != [] && IsFork(evs[0].body) && evs[0].body.life.state == src
    ensures Legal(f, src, evs) && FoldAll(f, src, evs) == FoldAll(f, New(exec), evs)
    decreases |evs|
  {
    hide Guard, Follows, Timely, Apply, ExpectedIndex;
    var n := |evs| - 1;
    assert evs[..0] == [];
    if n == 0 {
      ForkOnSource(f, exec, evs[0], src);
    } else {
      OnSource(f, exec, evs[..n], src);
    }
  }

  /** What begins with a fork folds the same from any state. */
  lemma {:induction false} ForkForgets(f: Flow, a: State, b: State, evs: seq<Event>)
    requires evs != [] && IsFork(evs[0].body)
    ensures FoldAll(f, a, evs) == FoldAll(f, b, evs)
    decreases |evs|
  {
    hide Apply;
    var n := |evs| - 1;
    if n == 0 {
      assert evs[..0] == [];
      ForkApplies(f, a, b, evs[0]);
    } else {
      ForkForgets(f, a, b, evs[..n]);
    }
  }

  lemma ForkApplies(f: Flow, a: State, b: State, ev: Event)
    requires IsFork(ev.body)
    ensures Apply(f, a, ev) == Apply(f, b, ev)
  {
  }

  lemma ForkOnSource(f: Flow, exec: string, ev: Event, src: State)
    requires IsFork(ev.body) && ev.body.life.state == src && Guard(f, New(exec), ev.body)
    ensures Guard(f, src, ev.body) && Follows(f, [], src, ev.body)
    ensures Apply(f, src, ev) == Apply(f, New(exec), ev) && ExpectedIndex(src, ev.body) == ExpectedIndex(New(exec), ev.body)
  {
    hide Boundary, NodeGuard, GraphGuard, WaitGuard, EnterGuard;
  }
}
