/** Executions of one flow, driven by any sequence of requests: commands, forks and continuations. */
module Fleets {
  import opened Values
  import opened Flows
  import opened Fold
  import opened Invariants
  import opened Guards
  import opened Outcomes
  import opened Commands
  import opened Forks
  import opened Deciders
  import opened Runs
  import opened Trails
  import opened Children
  import Graphs
  import Validation

  /** What a fork leaves: of a live source the same data with the edit applied and all that was in flight started again,
      unless the input of a child to start again fails; a finished source as it was. */
  ghost predicate Carries(f: Flow, s: State, id: string, ask: Ask, src: Option<State>, time: int, t: State) {
    ask.ForkFrom? && src.Some? && !Exists(s) ==>
      if Terminal(src.value.phase) then t.phase == src.value.phase && t.data == src.value.data
      else ForkOf(f, src.value, t, ask.writes, id, time) || (t.phase.ExecFailed? && src.value.ctl.children != map[])
  }

  /** Decides a request on state s of an execution: which error, exactly when there is nothing to do, what is recorded
      first, what a fork carries over, and that what is recorded is a legal decision. */
  method Decide(f: SoundFlow, s: State, id: string, ask: Ask, src: Option<State>, time: int)
    returns (error: Option<Error>, evs: seq<Event>, t: State)
    requires s == New(s.exec) || Boundary(f, s)
    requires src.Some? && !Exists(s) ==> Boundary(f, src.value) && src.value.exec != s.exec
    ensures error == Declined(f, s, id, ask, src)
    ensures evs == [] <==> error.Some? || Moot(s, id, ask)
    ensures if evs == [] then t == s
            else Decision(f, s, evs, t) && Legal(f, s, evs) && Replies(f, s, id, ask, src, evs[0].body)
    ensures evs != [] && ask.Issue? && ask.cmd.TimerCmd? ==> Fires(f, s, ask.cmd.timerId, evs)
    ensures evs != [] ==> Carries(f, s, id, ask, src, time, t)
  {
    hide Boundary, Legal, FoldAll, Refused, Ignored, Answers, Declared, Misaborted, Fires, OneCause, ForksFirst, ForkOf;
    BoundaryExists(f, s);
    var d := new Decider(f, s, time, id);
    match ask {
      case Issue(c) =>
        error := d.Decide(c);
        evs, t := d.out, d.st;
        if evs != [] { AnswerForks(f, s, id, c, evs[0].body); }
      case ForkFrom(from, at, writes) =>
        if src.None? {
          return if Exists(s) then None else Some(Invalid), [], s;
        }
        error := d.Fork(src.value, from, at, writes);
        evs, t := if error.Some? then [] else d.out, if error.Some? then s else d.st;
      case ContinueAs(segment) =>
        d.Continue(segment);
        error, evs, t := None, d.out, d.st;
    }
    if evs != [] { OneCauseForks(evs); }
  }

  /** Only a fork answers with a fork. */
  lemma AnswerForks(f: Flow, s: State, id: string, c: Command, b: Body)
    requires Answers(f, s, id, c, b)
    ensures !IsFork(b)
  {
    hide Accepted, Fixable, Cancellable;
  }

  /** What creates the execution in a decision d on nothing. */
  function FirstOf(s: State, d: seq<Event>): Option<LifeEvent> {
    if !Exists(s) && d != [] && d[0].body.OfLife? then Some(d[0].body.life) else None
  }

  /** Replaces decision d, too large to be stored, by the failure of the execution for that reason, naming the children in
      flight: nothing if it has finished. */
  method Abort(f: SoundFlow, s: State, id: string, d: seq<Event>, time: int) returns (evs: seq<Event>, t: State)
    requires s == New(s.exec) || Boundary(f, s)
    requires d != [] && (!Exists(s) ==> Legal(f, s, d))
    ensures if Exists(s) && Terminal(s.phase) then evs == [] && t == s
            else evs != [] && Decision(f, s, evs, t) && Terminal(t.phase) && Aborted(s, FirstOf(s, d), evs)
    ensures if Exists(s) then evs != [] ==> !IsFork(evs[0].body) else evs[0].body == d[0].body
  {
    hide Boundary, Legal, FoldAll, Aborted, AbortsFork, OneCause, ForksFirst;
    BoundaryExists(f, s);
    var first: Option<LifeEvent> := None;
    if !Exists(s) {
      FirstCreates(f, s, d);
      first := Some(d[0].body.life);
    }
    var decider := new Decider(f, s, time, id);
    var error := decider.Abort(first);
    evs, t := decider.out, decider.st;
    if !(Exists(s) && Terminal(s.phase)) {
      FinishedEnds(f, t);
      OneCauseForks(evs);
      AbortShape(s, first, evs);
    }
  }

  /** The first event of a decision on nothing creates the execution. */
  lemma FirstCreates(f: Flow, s: State, d: seq<Event>)
    requires s == New(s.exec) && Legal(f, s, d) && d != []
    ensures d[0].body.OfLife? && (d[0].body.life.Started? || d[0].body.life.Forked?) && LifeGuard(f, s, d[0].body.life)
  {
    hide Follows, Timely, FoldAll, After, LifeGuard, NodeGuard, GraphGuard, WaitGuard;
    LegalStep(f, s, d, 0);
    assert d[..0] == [];
    StartOf(f, s);
    FirstIsFirst(f, s.exec, d[0].body);
  }

  lemma FinishedEnds(f: Flow, s: State)
    requires Finished(f, s)
    ensures Boundary(f, s) && Terminal(s.phase)
  {
  }

  lemma AbortShape(s: State, first: Option<LifeEvent>, evs: seq<Event>)
    requires Aborted(s, first, evs)
    ensures evs != [] && (if Exists(s) then !IsFork(evs[0].body) else first.Some? && evs[0].body == OfLife(first.value))
    ensures AbortsFork(s, first) ==> Misaborted(s, evs)
  {
    hide InFlight;
  }

  /** A request to one execution, at some time. */
  datatype Order = Order(exec: string, id: string, time: int, ask: Ask)

  /** The state a fork is taken from: that after the given number of decisions of its source, all of them when it is 0. */
  function SourceOf(trails: map<string, Trail>, ask: Ask): Option<State> {
    if !ask.ForkFrom? || ask.from !in trails || trails[ask.from] == [] then None
    else
      Some(trails[ask.from][DecisionAt(trails, ask) - 1].state)
  }

  /** How many decisions of its source a fork takes over. */
  function DecisionAt(trails: map<string, Trail>, ask: Ask): (k: nat)
    requires ask.ForkFrom? && ask.from in trails && trails[ask.from] != []
    ensures 0 < k <= |trails[ask.from]|
  {
    var n := |trails[ask.from]|;
    if ask.at == 0 || ask.at > n then n else ask.at
  }

  function TrailOf(trails: map<string, Trail>, exec: string): Trail { if exec in trails then trails[exec] else [] }

  /** The decision was too large, and is replaced by the failure of the execution. */
  predicate Shortened(s: State, e: Entry) { Terminal(e.state.phase) && Aborted(s, FirstOf(s, e.evs), e.evs) }

  /** What a request does: nothing if it is declined or moot; otherwise it adds one decision that answers it. */
  ghost predicate Handled(f: Flow, before: map<string, Trail>, o: Order, after: map<string, Trail>) {
    var s := Trails.Last(o.exec, TrailOf(before, o.exec));
    if Declined(f, s, o.id, o.ask, SourceOf(before, o.ask)).Some? || Moot(s, o.id, o.ask) then after == before
    else exists e: Entry ::
           && e.id == o.id && e.ask == o.ask && Decision(f, s, e.evs, e.state) && Fitting(f, s, e)
           && (Carries(f, s, o.id, o.ask, SourceOf(before, o.ask), o.time, e.state) || Shortened(s, e))
           && after == before[o.exec := TrailOf(before, o.exec) + [e]]
  }

  lemma AsPromised(f: Flow, before: map<string, Trail>, o: Order, after: map<string, Trail>, evs: seq<Event>, t: State)
    requires var s := Trails.Last(o.exec, TrailOf(before, o.exec));
             && (evs == [] <==> Declined(f, s, o.id, o.ask, SourceOf(before, o.ask)).Some? || Moot(s, o.id, o.ask))
             && (if evs == [] then after == before
                 else && Decision(f, s, evs, t) && Fitting(f, s, Entry(o.id, o.ask, evs, t))
                      && (Carries(f, s, o.id, o.ask, SourceOf(before, o.ask), o.time, t) || Shortened(s, Entry(o.id, o.ask, evs, t)))
                      && after == before[o.exec := TrailOf(before, o.exec) + [Entry(o.id, o.ask, evs, t)]])
    ensures Handled(f, before, o, after)
  {
    hide Declined, Moot, Decision, Fitting, SourceOf, Carries, Shortened;
  }

  /** The line of an execution that was forked begins with that of its source, up to the decision it was taken after. */
  ghost predicate Tied(trails: map<string, Trail>, roots: map<string, string>, priors: map<string, seq<Event>>, exec: string) {
    && exec in trails && trails[exec] != [] && trails[exec][0].evs != []
    && (var e := trails[exec][0];
        if IsFork(e.evs[0].body) then
          && e.ask.ForkFrom? && e.ask.from in trails && e.ask.from in roots && e.ask.from in priors && exec in roots && exec in priors
          && roots[exec] == roots[e.ask.from]
          && exists k :: TakenAfter(trails[e.ask.from], k, e.evs[0].body.life.state)
                         && priors[exec] == priors[e.ask.from] + EventsOf(trails[e.ask.from][..k])
        else exec in roots && roots[exec] == exec && exec in priors && priors[exec] == [])
  }

  predicate TakenAfter(trail: Trail, k: int, s: State) { 0 < k <= |trail| && trail[k - 1].state == s }

  /** Of every execution it is known where its line begins, and what of it precedes the execution itself. */
  ghost predicate Lines(f: Flow, trails: map<string, Trail>, roots: map<string, string>, priors: map<string, seq<Event>>) {
    && trails.Keys == roots.Keys && trails.Keys == priors.Keys
    && (forall e | e in trails && e in roots && e in priors :: Kept(f, e, trails[e], roots[e], priors[e]))
    && (forall e | e in trails :: Tied(trails, roots, priors, e))
  }

  class Fleet {
    const f: SoundFlow
    const maxEvents: nat
    var trails: map<string, Trail>

    /** Where the line of each execution begins, and what of it precedes the execution itself. */
    ghost var roots: map<string, string>
    ghost var priors: map<string, seq<Event>>

    ghost predicate Valid()
      reads this
    {
      Lines(f, trails, roots, priors)
    }

    constructor (f: SoundFlow, maxEvents: nat)
      ensures Valid() && this.f == f && trails == map[]
    {
      this.f, this.maxEvents := f, maxEvents;
      trails, roots, priors := map[], map[], map[];
    }

    /** Decides a request and stores the decision; one that is too large is replaced by the failure of the execution. */
    method Handle(o: Order) returns (error: Option<Error>)
      requires Valid()
      modifies this
      ensures Valid() && Handled(f, old(trails), o, trails)
      ensures error == Declined(f, Trails.Last(o.exec, TrailOf(old(trails), o.exec)), o.id, o.ask, SourceOf(old(trails), o.ask))
    {
      hide Kept, Decision, Boundary, Legal, Declined, Moot, Fitting, Valid, Handled, TrailOf, SourceOf, Exists, Carries, Shortened;
      var s := Trails.Last(o.exec, TrailOf(trails, o.exec));
      var src := SourceOf(trails, o.ask);
      Decidable(o);
      var evs, t;
      error, evs, t := Produce(f, maxEvents, s, o.id, o.ask, src, o.time);
      if evs != [] {
        Store(o, Entry(o.id, o.ask, evs, t));
      }
      AsPromised(f, old(trails), o, trails, evs, t);
    }

    /** A request finds an execution that does not exist or is between two decisions, and so does it a source. */
    lemma Decidable(o: Order)
      requires Valid()
      ensures var s := Trails.Last(o.exec, TrailOf(trails, o.exec));
              var src := SourceOf(trails, o.ask);
              && (s == New(s.exec) || Boundary(f, s))
              && (src.Some? && !Exists(s) ==> Boundary(f, src.value) && src.value.exec != s.exec)
    {
      hide Kept, Boundary, Tied;
      var trail, src := TrailOf(trails, o.exec), SourceOf(trails, o.ask);
      if o.exec in trails { KeptLast(f, o.exec, trail, roots[o.exec], priors[o.exec]); }
      if src.Some? { KeptAt(f, o.ask.from, trails[o.ask.from], roots[o.ask.from], priors[o.ask.from], DecisionAt(trails, o.ask)); }
    }

    method Store(o: Order, e: Entry)
      requires Valid() && e.id == o.id && e.ask == o.ask
      requires var s := Trails.Last(o.exec, TrailOf(trails, o.exec));
               && Decision(f, s, e.evs, e.state) && Fitting(f, s, e) && e.evs != []
               && (IsFork(e.evs[0].body) ==>
                     e.ask.ForkFrom? && SourceOf(trails, e.ask).Some? && e.evs[0].body.life.state == SourceOf(trails, e.ask).value
                     && !Exists(s))
      modifies this
      ensures Valid() && trails == old(trails)[o.exec := TrailOf(old(trails), o.exec) + [e]]
    {
      hide Lines, Decision, Fitting, Exists, DecisionAt;
      if IsFork(e.evs[0].body) {
        assert TakenAfter(trails[e.ask.from], DecisionAt(trails, e.ask), e.evs[0].body.life.state);
      }
      roots, priors := LinesGrow(f, trails, roots, priors, o.exec, e);
      trails := trails[o.exec := TrailOf(trails, o.exec) + [e]];
    }
  }

  /** A decision is of a fork only if it was taken after a decision of its source. */
  ghost predicate Sourced(trails: map<string, Trail>, e: Entry) {
    e.evs != [] && IsFork(e.evs[0].body) ==>
      e.ask.ForkFrom? && e.ask.from in trails && exists k :: TakenAfter(trails[e.ask.from], k, e.evs[0].body.life.state)
  }

  /** An execution has one more decision. */
  lemma LinesGrow(f: Flow, trails: map<string, Trail>, roots: map<string, string>, priors: map<string, seq<Event>>, exec: string, e: Entry)
    returns (roots': map<string, string>, priors': map<string, seq<Event>>)
    requires Lines(f, trails, roots, priors) && Sourced(trails, e) && e.evs != []
    requires Decision(f, Trails.Last(exec, TrailOf(trails, exec)), e.evs, e.state)
    requires Fitting(f, Trails.Last(exec, TrailOf(trails, exec)), e)
    ensures Lines(f, trails[exec := TrailOf(trails, exec) + [e]], roots', priors')
  {
    hide Kept, Decision, Fitting, Tied, EventsOf, Placed, Sourced;
    var trail := TrailOf(trails, exec);
    roots', priors' := roots, priors;
    if exec in roots {
      KeepsOn(f, exec, trail, roots[exec], priors[exec], e);
    } else {
      assert trail + [e] == [e];
      roots', priors' := Enrolled(f, trails, roots, priors, exec, e);
    }
    AllTied(trails, roots, priors, trails[exec := trail + [e]], roots', priors', exec, e);
  }

  /** Where the line of a new execution begins. */
  lemma Enrolled(f: Flow, trails: map<string, Trail>, roots: map<string, string>, priors: map<string, seq<Event>>, exec: string, e: Entry)
    returns (roots': map<string, string>, priors': map<string, seq<Event>>)
    requires Lines(f, trails, roots, priors) && Sourced(trails, e) && exec !in trails
    requires e.evs != [] && Decision(f, New(exec), e.evs, e.state) && Fitting(f, New(exec), e)
    ensures exec in roots' && exec in priors' && roots' == roots[exec := roots'[exec]] && priors' == priors[exec := priors'[exec]]
    ensures Kept(f, exec, [e], roots'[exec], priors'[exec]) && Placed(trails, roots', priors', exec, e)
  {
    hide Kept, Decision, Fitting, Tied, EventsOf;
    if IsFork(e.evs[0].body) {
      var from := e.ask.from;
      var k :| TakenAfter(trails[from], k, e.evs[0].body.life.state);
      KeptFork(f, exec, e, from, trails[from], roots[from], priors[from], k);
      roots', priors' := roots[exec := roots[from]], priors[exec := priors[from] + EventsOf(trails[from][..k])];
    } else {
      KeptStart(f, exec, e);
      roots', priors' := roots[exec := exec], priors[exec := []];
    }
  }

  /** The line of a new execution: that of its source up to the decision it is taken after, or none. */
  ghost predicate Placed(trails: map<string, Trail>, roots: map<string, string>, priors: map<string, seq<Event>>, exec: string, e: Entry)
    requires e.evs != []
  {
    && exec in roots && exec in priors
    && (if IsFork(e.evs[0].body) then
          && e.ask.ForkFrom? && e.ask.from in trails && e.ask.from in roots && e.ask.from in priors
          && roots[exec] == roots[e.ask.from]
          && exists k :: TakenAfter(trails[e.ask.from], k, e.evs[0].body.life.state)
                         && priors[exec] == priors[e.ask.from] + EventsOf(trails[e.ask.from][..k])
        else roots[exec] == exec && priors[exec] == [])
  }

  lemma AllTied(trails: map<string, Trail>, roots: map<string, string>, priors: map<string, seq<Event>>,
                trails': map<string, Trail>, roots': map<string, string>, priors': map<string, seq<Event>>, exec: string, e: Entry)
    requires trails.Keys == roots.Keys && trails.Keys == priors.Keys && (forall x | x in trails :: Tied(trails, roots, priors, x))
    requires trails' == trails[exec := TrailOf(trails, exec) + [e]]
    requires if exec in roots then roots' == roots && priors' == priors
             else && exec in roots' && exec in priors' && roots' == roots[exec := roots'[exec]] && priors' == priors[exec := priors'[exec]]
                  && e.evs != [] && Placed(trails, roots', priors', exec, e)
    ensures forall x | x in trails' :: Tied(trails', roots', priors', x)
  {
    hide Tied, Placed;
    assert Extends(trails, roots, priors, trails', roots', priors');
    hide Extends;
    forall x | x in trails' ensures Tied(trails', roots', priors', x) {
      if x in trails {
        StaysTied(trails, roots, priors, trails', roots', priors', x);
      } else {
        assert [] + [e] == [e];
        TiedNew(trails, trails', roots', priors', x, e);
      }
    }
  }

  lemma TiedNew(trails: map<string, Trail>, trails': map<string, Trail>, roots: map<string, string>, priors: map<string, seq<Event>>,
                exec: string, e: Entry)
    requires exec !in trails && trails' == trails[exec := [e]] && e.evs != [] && Placed(trails, roots, priors, exec, e)
    ensures Tied(trails', roots, priors, exec)
  {
    hide EventsOf;
    if IsFork(e.evs[0].body) {
      var from := e.ask.from;
      var k :| TakenAfter(trails[from], k, e.evs[0].body.life.state) && priors[exec] == priors[from] + EventsOf(trails[from][..k]);
      assert TakenAfter(trails'[from], k, e.evs[0].body.life.state);
    }
  }

  /** Trails grow, and what is said of lines stays. */
  ghost predicate Extends(trails: map<string, Trail>, roots: map<string, string>, priors: map<string, seq<Event>>,
                          trails': map<string, Trail>, roots': map<string, string>, priors': map<string, seq<Event>>)
  {
    && (forall x | x in trails :: x in trails' && trails[x] <= trails'[x])
    && (forall x | x in roots :: x in roots' && roots'[x] == roots[x])
    && (forall x | x in priors :: x in priors' && priors'[x] == priors[x])
  }

  lemma StaysTied(trails: map<string, Trail>, roots: map<string, string>, priors: map<string, seq<Event>>,
                  trails': map<string, Trail>, roots': map<string, string>, priors': map<string, seq<Event>>, exec: string)
    requires Tied(trails, roots, priors, exec) && Extends(trails, roots, priors, trails', roots', priors')
    ensures Tied(trails', roots', priors', exec)
  {
    hide EventsOf;
    assert trails[exec] <= trails'[exec];
    assert trails'[exec][0] == trails[exec][0];
    var e := trails[exec][0];
    if IsFork(e.evs[0].body) {
      var from := e.ask.from;
      var k :| TakenAfter(trails[from], k, e.evs[0].body.life.state) && priors[exec] == priors[from] + EventsOf(trails[from][..k]);
      assert trails[from] <= trails'[from];
      assert trails'[from][..k] == trails[from][..k];
      assert TakenAfter(trails'[from], k, e.evs[0].body.life.state);
    }
  }

  /** Decides a request; a decision that is too large is replaced by the failure of the execution. */
  method Produce(f: SoundFlow, maxEvents: nat, s: State, id: string, ask: Ask, src: Option<State>, time: int)
    returns (error: Option<Error>, evs: seq<Event>, t: State)
    requires s == New(s.exec) || Boundary(f, s)
    requires src.Some? && !Exists(s) ==> Boundary(f, src.value) && src.value.exec != s.exec
    ensures error == Declined(f, s, id, ask, src)
    ensures evs == [] <==> error.Some? || Moot(s, id, ask)
    ensures evs != [] ==> Decision(f, s, evs, t) && Fitting(f, s, Entry(id, ask, evs, t))
    ensures evs != [] ==> Carries(f, s, id, ask, src, time, t) || Shortened(s, Entry(id, ask, evs, t))
    ensures evs != [] && IsFork(evs[0].body) ==> ask.ForkFrom? && src.Some? && evs[0].body.life.state == src.value && !Exists(s)
  {
    hide Decision, Boundary, Legal, Declined, Moot, Fitting, Replies, Carries;
    error, evs, t := Decide(f, s, id, ask, src, time);
    if evs == [] {
      return;
    }
    ghost var first := evs[0].body;
    if |evs| > maxEvents {
      MootEnds(s, id, ask);
      evs, t := Abort(f, s, id, evs, time);
    }
    EntryFits(f, s, Entry(id, ask, evs, t), src, first);
  }

  /** What Fleet keeps of an execution. */
  ghost predicate Kept(f: Flow, exec: string, trail: Trail, root: string, prior: seq<Event>) {
    trail != [] && TrailOk(f, exec, trail) && Traced(f, exec, trail, root, prior)
  }

  /** The line of the execution goes back to root through prior; nothing is said of an inert one. */
  ghost predicate Traced(f: Flow, exec: string, trail: Trail, root: string, prior: seq<Event>) {
    || Inert(exec, trail)
    || (&& Descends(f, root, prior + EventsOf(trail), Trails.Last(exec, trail))
        && (if EventsOf(trail) != [] && IsFork(EventsOf(trail)[0].body) then true else prior == [] && root == exec))
  }

  /** What is not declined or moot is asked of an execution that has not finished. */
  lemma MootEnds(s: State, id: string, ask: Ask)
    requires !Moot(s, id, ask)
    ensures !(Exists(s) && Terminal(s.phase))
  {
  }

  /** Nothing is left to do in a finished execution. */
  lemma FinishedMoot(s: State, id: string, ask: Ask)
    requires Exists(s) && Terminal(s.phase)
    ensures Moot(s, id, ask)
  {
  }

  lemma EntryFits(f: Flow, s: State, e: Entry, src: Option<State>, first: Body)
    requires Declined(f, s, e.id, e.ask, src).None? && !Moot(s, e.id, e.ask) && Replies(f, s, e.id, e.ask, src, first)
    requires e.evs != [] && (Terminal(e.state.phase) || e.evs[0].body == first)
    ensures Fitting(f, s, e)
    ensures IsFork(first) ==> e.ask.ForkFrom? && src.Some? && first.life.state == src.value && !Exists(s)
  {
    hide Refused, Ignored, Answers;
    if e.ask.Issue? { AnswerForks(f, s, e.id, e.ask.cmd, first); }
  }

  lemma KeptLast(f: Flow, exec: string, trail: Trail, root: string, prior: seq<Event>)
    requires Kept(f, exec, trail, root, prior)
    ensures trail != [] && Trails.Last(exec, trail).exec == exec && Boundary(f, Trails.Last(exec, trail)) && Exists(Trails.Last(exec, trail))
  {
    hide TrailOk, Boundary, Traced;
    LastExists(f, exec, trail);
  }

  lemma KeptAt(f: Flow, exec: string, trail: Trail, root: string, prior: seq<Event>, k: nat)
    requires Kept(f, exec, trail, root, prior) && 0 < k <= |trail|
    ensures Boundary(f, trail[k - 1].state) && trail[k - 1].state.exec == exec
  {
    hide TrailOk, Boundary, Traced;
    RunBefore(f, exec, trail, k);
    LastExists(f, exec, trail[..k]);
  }

  lemma OneDecision(f: Flow, exec: string, e: Entry)
    ensures EventsOf([e]) == e.evs
    ensures TrailOk(f, exec, [e]) ==> Decision(f, New(exec), e.evs, e.state)
  {
    hide Decision, Fitting;
    var d := DecisionsOf([e]);
    assert d[..0] == [] && Concat(d[..0]) == [];
    assert Concat(d) == [] + d[0];
    if TrailOk(f, exec, [e]) { assert Decision(f, StatesOf(exec, [e])[0], DecisionsOf([e])[0], StatesOf(exec, [e])[1]); }
  }

  lemma OneEvent(f: Flow, s: State, ev: Event, t: State)
    requires FoldAll(f, s, [ev]) == Some(t) && IsFork(ev.body)
    ensures t.phase == ev.body.life.state.phase
  {
    assert [ev][..0] == [];
    hide Foldable, ExpectedIndex;
  }

  lemma InertEnds(f: Flow, exec: string, trail: Trail)
    requires TrailOk(f, exec, trail) && Inert(exec, trail)
    ensures |trail| == 1 && Terminal(trail[0].state.phase)
  {
    hide TrailOk, Legal, FoldAll, Boundary, Misaborted;
    assert trail == [trail[0]];
    OneDecision(f, exec, trail[0]);
    var evs := trail[0].evs;
    if Misaborted(New(exec), evs) {
      MisabortedEnds(f, exec, evs, trail[0].state);
    } else {
      assert evs == [evs[0]];
      OneEvent(f, New(exec), evs[0], trail[0].state);
    }
  }

  /** A further decision keeps the line of the execution. */
  lemma KeepsOn(f: Flow, exec: string, trail: Trail, root: string, prior: seq<Event>, e: Entry)
    requires Kept(f, exec, trail, root, prior)
    requires Decision(f, Trails.Last(exec, trail), e.evs, e.state) && Fitting(f, Trails.Last(exec, trail), e)
    ensures Kept(f, exec, trail + [e], root, prior)
  {
    hide TrailOk, Legal, FoldAll, Boundary, Misaborted, Fitting, Descends, Inert;
    TrailGrows(f, exec, trail, e);
    KeptLast(f, exec, trail, root, prior);
    NothingAfter(f, Trails.Last(exec, trail), e.evs, e.state);
    if Inert(exec, trail) { InertEnds(f, exec, trail); assert false; }
    SomeEvents(f, exec, trail);
    assert prior + EventsOf(trail + [e]) == (prior + EventsOf(trail)) + e.evs;
    LineGrows(f, root, prior + EventsOf(trail), Trails.Last(exec, trail), e.evs, e.state);
  }

  lemma SomeEvents(f: Flow, exec: string, trail: Trail)
    requires TrailOk(f, exec, trail) && trail != []
    ensures EventsOf(trail) != []
  {
    hide Run, Fitting;
    RunIsLegal(f, exec, DecisionsOf(trail), StatesOf(exec, trail));
  }

  lemma FirstEntry(f: Flow, exec: string, e: Entry)
    requires Decision(f, New(exec), e.evs, e.state) && Fitting(f, New(exec), e)
    ensures TrailOk(f, exec, [e]) && EventsOf([e]) == e.evs
  {
    hide Decision, Fitting, TrailOk, EventsOf;
    Empty(f, exec);
    TrailGrows(f, exec, [], e);
    OneDecision(f, exec, e);
    assert [] + [e] == [e];
  }

  lemma NoLine(f: Flow, root: string)
    ensures Descends(f, root, [], New(root))
  {
  }

  /** The line of an execution that was started begins with it. */
  lemma KeptStart(f: Flow, exec: string, e: Entry)
    requires Decision(f, New(exec), e.evs, e.state) && Fitting(f, New(exec), e) && !IsFork(e.evs[0].body)
    ensures Kept(f, exec, [e], exec, [])
  {
    hide TrailOk, Legal, FoldAll, Boundary, Fitting, Descends, EventsOf, AbortsFork, Aborted;
    FirstEntry(f, exec, e);
    NoLine(f, exec);
    assert [] + e.evs == e.evs;
    LineGrows(f, exec, [], New(exec), e.evs, e.state);
  }

  /** The line of a fork is that of its source up to where it was taken. */
  lemma KeptFork(f: Flow, exec: string, e: Entry, from: string, source: Trail, root: string, prior: seq<Event>, k: nat)
    requires Kept(f, from, source, root, prior) && 0 < k <= |source|
    requires Decision(f, New(exec), e.evs, e.state) && Fitting(f, New(exec), e)
    requires IsFork(e.evs[0].body) && e.evs[0].body.life.state == source[k - 1].state
    ensures Kept(f, exec, [e], root, prior + EventsOf(source[..k]))
  {
    hide TrailOk, Legal, FoldAll, Boundary, Fitting, Descends, EventsOf, Misaborted, Inert;
    FirstEntry(f, exec, e);
    var src := source[k - 1].state;
    if Misaborted(New(exec), e.evs) {
      InertFork(exec, e);
    } else if Inert(from, source) {
      InertEnds(f, from, source);
      assert k == 1;
      OnlyTheFork(f, exec, e.evs);
      InertFork(exec, e);
    } else {
      LineAt(f, from, source, root, prior, k);
      OnSource(f, exec, e.evs, src);
      LineGrows(f, root, prior + EventsOf(source[..k]), src, e.evs, e.state);
    }
  }

  lemma InertFork(exec: string, e: Entry)
    requires Misaborted(New(exec), e.evs) || (|e.evs| == 1 && IsFork(e.evs[0].body) && Terminal(e.evs[0].body.life.state.phase))
    ensures Inert(exec, [e])
  {
  }

  /** Nothing follows the fork of a finished execution. */
  lemma OnlyTheFork(f: Flow, exec: string, evs: seq<Event>)
    requires Legal(f, New(exec), evs) && ForksFirst(evs) && evs != [] && IsFork(evs[0].body)
    requires Terminal(evs[0].body.life.state.phase)
    ensures |evs| == 1
  {
    hide Legal, FoldAll, Guard, Follows, Timely, Foldable;
    if |evs| > 1 {
      LegalStep(f, New(exec), evs, 0);
      LegalStep(f, New(exec), evs, 1);
      assert At(f, New(exec), evs, 1).phase == evs[0].body.life.state.phase;
      OnlyForked(f, At(f, New(exec), evs, 1), evs[1].body);
    }
  }

  lemma LineAt(f: Flow, exec: string, trail: Trail, root: string, prior: seq<Event>, k: nat)
    requires TrailOk(f, exec, trail) && 0 < k <= |trail| && Traced(f, exec, trail, root, prior) && !Inert(exec, trail)
    ensures Descends(f, root, prior + EventsOf(trail[..k]), trail[k - 1].state)
  {
    hide TrailOk, Legal, FoldAll, EventsOf, Inert, Lineal, StatesOf;
    var line, part := prior + EventsOf(trail), prior + EventsOf(trail[..k]);
    EventsBefore(trail, k);
    assert line[..|part|] == part;
    FoldsTo(f, exec, trail, root, prior, k);
    LineBefore(f, root, line, Trails.Last(exec, trail), |part|, trail[k - 1].state);
  }

  /** The line of an execution folds to the states of the execution itself. */
  lemma FoldsTo(f: Flow, exec: string, trail: Trail, root: string, prior: seq<Event>, k: nat)
    requires TrailOk(f, exec, trail) && 0 < k <= |trail| && Traced(f, exec, trail, root, prior) && !Inert(exec, trail)
    ensures FoldAll(f, New(root), prior + EventsOf(trail[..k])) == Some(trail[k - 1].state)
  {
    hide TrailOk, Legal, FoldAll, Inert, EventsOf, StatesOf, Lineal;
    RunBefore(f, exec, trail, k);
    var own := EventsOf(trail[..k]);
    OwnFolds(f, exec, trail[..k]);
    EventsBefore(trail, k);
    assert own[0] == EventsOf(trail)[0];
    if IsFork(own[0].body) {
      ThroughFork(f, root, prior, EventsOf(trail));
      FoldAllConcat(f, New(root), prior, own);
      ForkForgets(f, New(exec), own[0].body.life.state, own);
    } else {
      assert [] + own == own;
    }
  }

  lemma OwnFolds(f: Flow, exec: string, trail: Trail)
    requires TrailOk(f, exec, trail) && trail != []
    ensures EventsOf(trail) != [] && FoldAll(f, New(exec), EventsOf(trail)) == Some(trail[|trail| - 1].state)
  {
    hide Run, Fitting, Legal, FoldAll;
    RunIsLegal(f, exec, DecisionsOf(trail), StatesOf(exec, trail));
  }

  /** What precedes a fork in a line folds to the state it is of. */
  lemma ThroughFork(f: Flow, root: string, prior: seq<Event>, own: seq<Event>)
    requires Lineal(f, New(root), prior + own) && own != [] && IsFork(own[0].body)
    ensures FoldAll(f, New(root), prior) == Some(own[0].body.life.state)
  {
    hide FoldAll;
    var line := prior + own;
    assert line[|prior|] == own[0] && line[..|prior|] == prior;
  }

  // ---- What holds of every execution ----

  /** No state after a decision is stuck. */
  ghost predicate NeverStuck(f: Flow, exec: string, trail: Trail) {
    forall i :: 0 < i <= |trail| ==> Unstuck(f, StatesOf(exec, trail)[i])
  }

  /** Every decision has one cause, every event keeps to the laws of events, no attempt is scheduled or settled twice and
      every child has one fate. */
  ghost predicate Orderly(f: Flow, exec: string, trail: Trail) {
    var evs := EventsOf(trail);
    && (forall i :: 0 <= i < |trail| ==> OneCause(trail[i].evs))
    && (forall i :: 0 <= i < |evs| ==> LawfulAt(f, exec, evs, i)) && AttemptsOnce(evs)
    && (forall id :: OneFate(f, exec, evs, id))
  }

  /** The events of the execution, after those in prior of the executions it descends from by forks, account for its
      state. */
  ghost predicate Balanced(f: Flow, exec: string, trail: Trail, root: string, prior: seq<Event>) {
    && Descends(f, root, prior + EventsOf(trail), Trails.Last(exec, trail))
    && Accounted(f, root, prior + EventsOf(trail), Trails.Last(exec, trail))
  }

  lemma TrailUnstuck(f: SoundFlow, exec: string, trail: Trail)
    requires TrailOk(f, exec, trail)
    ensures NeverStuck(f, exec, trail)
  {
    hide TrailOk, Boundary, Unstuck, Sound;
    forall i | 0 < i <= |trail| ensures Unstuck(f, StatesOf(exec, trail)[i]) {
      RunBefore(f, exec, trail, i);
      LastExists(f, exec, trail[..i]);
      BoundaryUnstuck(f, trail[i - 1].state);
    }
  }

  lemma CauseAt(f: Flow, exec: string, trail: Trail, i: nat)
    requires TrailOk(f, exec, trail) && i < |trail|
    ensures OneCause(trail[i].evs)
  {
    hide Legal, FoldAll, Boundary, Misaborted, Fitting, OneCause;
    assert Decision(f, StatesOf(exec, trail)[i], DecisionsOf(trail)[i], StatesOf(exec, trail)[i + 1]);
  }

  lemma TrailOrderly(f: Flow, exec: string, trail: Trail)
    requires TrailOk(f, exec, trail) && trail != [] && !Misaborted(New(exec), EventsOf(trail))
    ensures Orderly(f, exec, trail)
  {
    hide Run, Fitting, Legal, Misaborted, LawfulAt, AttemptsOnce, OneFate, OneCause;
    RunIsLegal(f, exec, DecisionsOf(trail), StatesOf(exec, trail));
    var evs := EventsOf(trail);
    forall i | 0 <= i < |trail| ensures OneCause(trail[i].evs) { CauseAt(f, exec, trail, i); }
    forall i | 0 <= i < |evs| ensures LawfulAt(f, exec, evs, i) { AllLawful(f, exec, evs, i); }
    OnceOnly(f, exec, evs);
    forall id ensures OneFate(f, exec, evs, id) { FateOfAll(f, exec, evs, id); }
  }

  lemma KeptBalanced(f: Flow, exec: string, trail: Trail, root: string, prior: seq<Event>)
    requires Kept(f, exec, trail, root, prior) && !Inert(exec, trail)
    ensures Balanced(f, exec, trail, root, prior)
  {
    hide TrailOk, Boundary, Descends, Accounted, Inert;
    LastExists(f, exec, trail);
    LineAccounts(f, root, prior + EventsOf(trail), Trails.Last(exec, trail));
  }

  /** Validates a flow and, if it is accepted, serves any sequence of requests to executions of it: commands, forks and
      continuations. stages are the executions before and after each of them; roots and priors say where the line of each
      execution begins and what of it precedes the execution. Every execution is never stuck, and no command that took
      effect has any effect again; unless it is the aborted fork of an execution with children, all its events are in
      order; and unless it is such a fork or that of a finished execution, its events account for its state. */
  method Serve(src: Graphs.Source, maxEvents: nat, orders: seq<Order>)
    returns (flow: Option<Flow>, trails: map<string, Trail>, ghost stages: seq<map<string, Trail>>, ghost roots: map<string, string>,
             ghost priors: map<string, seq<Event>>)
    ensures flow.Some? <==> exists s :: Graphs.WellFormed(src, s)
    ensures flow.Some? ==> exists ix :: Graphs.Accepted(src, ix) && flow.value == Graphs.Built(src, ix)
    ensures flow.None? ==> trails == map[]
    ensures flow.Some? ==>
              && |stages| == |orders| + 1 && stages[0] == map[] && stages[|orders|] == trails
              && forall i :: 0 <= i < |orders| ==> Handled(flow.value, stages[i], orders[i], stages[i + 1])
    ensures forall exec | exec in trails :: NeverStuck(flow.value, exec, trails[exec]) && NotAgain(exec, trails[exec])
    ensures forall exec | exec in trails :: Orderly(flow.value, exec, trails[exec]) <==> !Misaborted(New(exec), EventsOf(trails[exec]))
    ensures forall exec | exec in trails :: Tied(trails, roots, priors, exec) && exec in roots && exec in priors
    ensures forall exec | exec in trails && exec in roots && exec in priors ::
              Balanced(flow.value, exec, trails[exec], roots[exec], priors[exec]) || Inert(exec, trails[exec])
  {
    hide Kept, Orderly, Balanced, NeverStuck, NotAgain, Misaborted, Inert, Sound, Graphs.Accepted, Graphs.WellFormed, Handled, Tied;
    var v := new Validation.Validator(src);
    var ok := v.Validate();
    if !ok {
      return None, map[], [], map[], map[];
    }
    var f: SoundFlow := Graphs.Built(src, Graphs.Indexes(v.byId, v.startId, v.branchOf, v.joinOf));
    var fleet := new Fleet(f, maxEvents);
    stages := [fleet.trails];
    for i := 0 to |orders|
      invariant fresh(fleet) && fleet.Valid() && fleet.f == f
      invariant |stages| == i + 1 && stages[0] == map[] && stages[i] == fleet.trails
      invariant forall j :: 0 <= j < i ==> Handled(f, stages[j], orders[j], stages[j + 1])
    {
      var _ := fleet.Handle(orders[i]);
      stages := stages + [fleet.trails];
    }
    forall exec | exec in fleet.trails
      ensures NeverStuck(f, exec, fleet.trails[exec]) && NotAgain(exec, fleet.trails[exec])
      ensures Orderly(f, exec, fleet.trails[exec]) <==> !Misaborted(New(exec), EventsOf(fleet.trails[exec]))
      ensures Balanced(f, exec, fleet.trails[exec], fleet.roots[exec], fleet.priors[exec]) || Inert(exec, fleet.trails[exec])
    {
      KeptHolds(f, exec, fleet.trails[exec], fleet.roots[exec], fleet.priors[exec]);
    }
    return Some(f), fleet.trails, stages, fleet.roots, fleet.priors;
  }

  lemma KeptHolds(f: SoundFlow, exec: string, trail: Trail, root: string, prior: seq<Event>)
    requires Kept(f, exec, trail, root, prior)
    ensures NeverStuck(f, exec, trail) && NotAgain(exec, trail)
    ensures Orderly(f, exec, trail) <==> !Misaborted(New(exec), EventsOf(trail))
    ensures Balanced(f, exec, trail, root, prior) || Inert(exec, trail)
  {
    hide TrailOk, Traced, Orderly, Balanced, NeverStuck, NotAgain, Misaborted, Inert, Sound, EventsOf;
    TrailHolds(f, exec, trail);
    if !Inert(exec, trail) { KeptBalanced(f, exec, trail, root, prior); }
  }

  lemma TrailHolds(f: SoundFlow, exec: string, trail: Trail)
    requires TrailOk(f, exec, trail) && trail != []
    ensures NeverStuck(f, exec, trail) && NotAgain(exec, trail)
    ensures Orderly(f, exec, trail) <==> !Misaborted(New(exec), EventsOf(trail))
  {
    hide TrailOk, Orderly, NeverStuck, NotAgain, Misaborted, Sound, EventsOf;
    TrailUnstuck(f, exec, trail);
    Redelivered(f, exec, trail);
    if Misaborted(New(exec), EventsOf(trail)) {
      MisabortedDisorderly(f, exec, trail);
    } else {
      TrailOrderly(f, exec, trail);
    }
  }

  /** An aborted fork that names children of its source breaks the law that cancel lists name own children only. */
  lemma MisabortedDisorderly(f: Flow, exec: string, trail: Trail)
    requires TrailOk(f, exec, trail) && trail != [] && Misaborted(New(exec), EventsOf(trail))
    ensures !Orderly(f, exec, trail)
  {
    hide TrailOk, Legal, FoldAll, AttemptsOnce, OneFate, Guard, Boundary, After, AbortsFork, LedTo, Justified;
    var evs := EventsOf(trail);
    FirstLegal(f, exec, trail);
    ForeignChild(f, exec, evs);
    assert LawfulAt(f, exec, evs, 1) ==> Lawful(f, evs[..1], At(f, New(exec), evs, 1), evs[1].body);
  }

  lemma FirstLegal(f: Flow, exec: string, trail: Trail)
    requires TrailOk(f, exec, trail) && trail != []
    ensures EventsOf(trail) != [] && Legal(f, New(exec), EventsOf(trail)[..1])
  {
    hide Legal, FoldAll, Boundary, Misaborted, Fitting, EventsOf;
    var first := trail[0];
    assert Decision(f, StatesOf(exec, trail)[0], DecisionsOf(trail)[0], StatesOf(exec, trail)[1]);
    if Legal(f, New(exec), first.evs) { LegalPrefix(f, New(exec), first.evs, 1); }
    EventsBefore(trail, 0);
    assert trail[..0] == [];
    NoEvents();
    assert EventsOf(trail)[..1] == first.evs[..1];
  }

  lemma NoEvents()
    ensures EventsOf([]) == []
  {
  }

  lemma ForeignChild(f: Flow, exec: string, evs: seq<Event>)
    requires Misaborted(New(exec), evs) && Legal(f, New(exec), evs[..1])
    ensures FoldAll(f, New(exec), evs[..1]).Some? && At(f, New(exec), evs, 1).exec == exec
    ensures exists id :: id in CancelList(evs[1].body) && id.parent != exec
  {
    hide Legal, FoldAll, Follows, Timely, NodeGuard, GraphGuard, WaitGuard, Boundary;
    var one := evs[..1];
    LegalStep(f, New(exec), one, 0);
    assert one[..0] == [] && one[..1] == one;
    StartOf(f, New(exec));
    var src := evs[0].body.life.state;
    SourceKids(f, src);
    var k :| k in src.ctl.children && !src.ctl.children[k].abandon;
    assert src.ctl.children[k].id in CancelList(evs[1].body);
  }
}
