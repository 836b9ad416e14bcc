/** The layers together: engines that run concurrently, each deciding with the decider, write runs. */
module Systems {
  import opened Values
  import opened Flows
  import opened Fold
  import opened Invariants
  import opened Guards
  import opened Commands
  import opened Runs
  import opened Trails
  import opened Histories
  import opened WrittenLogs
  import opened LogProtocol
  import Fleets
  import Forks
  import Graphs
  import Validation

  datatype Call = Call(id: string, ask: Ask)

  /** Under which circumstances a request is decided: the time, and the state a fork is taken from. */
  datatype Moment = Moment(time: int, src: Option<State>)

  type Log = seq<Stored<Call, Event, Moment>>
  type Place = World<State, Call, Event, Moment>
  type Server = Engine<State, Call, Event, Moment>

  function Folded(f: Flow, s: State, evs: seq<Event>): State {
    if FoldAll(f, s, evs).Some? then FoldAll(f, s, evs).value else s
  }

  /** What the decider may answer. */
  ghost predicate Decides(f: Flow, s: State, c: Call, m: Moment, evs: seq<Event>) {
    && Declined(f, s, c.id, c.ask, m.src).None? && (evs == [] <==> Moot(s, c.id, c.ask))
    && (evs != [] ==>
          && Decision(f, s, evs, Folded(f, s, evs)) && Legal(f, s, evs) && Replies(f, s, c.id, c.ask, m.src, evs[0].body)
          && (c.ask.Issue? && c.ask.cmd.TimerCmd? ==> Fires(f, s, c.ask.cmd.timerId, evs))
          && Fleets.Carries(f, s, c.id, c.ask, m.src, m.time, Folded(f, s, evs)))
  }

  /** What replaces decision d, which is too large: the failure of the execution for that reason, naming the children in
      flight, after what creates it if needed. */
  ghost predicate Aborts(f: Flow, s: State, d: seq<Event>, evs: seq<Event>) {
    if Exists(s) && Terminal(s.phase) then evs == []
    else
      && evs != [] && Decision(f, s, evs, Folded(f, s, evs)) && Terminal(Folded(f, s, evs).phase)
      && Forks.Aborted(s, Fleets.FirstOf(s, d), evs)
  }

  ghost function Machinery(f: Flow, exec: string, maxEvents: nat): Machine<State, Call, Event, Moment> {
    Machine(New(exec), (s, evs) => Folded(f, s, evs), (s, c, m, evs) => Decides(f, s, c, m, evs),
            (s, d, _, _, evs) => Aborts(f, s, d, evs), s => Exists(s) && Terminal(s.phase), maxEvents)
  }

  lemma MachineryIsSane(f: Flow, exec: string, maxEvents: nat)
    ensures Sane(Machinery(f, exec, maxEvents))
  {
    hide Decision, Legal, Declined, Replies, Ignored, Fires, Fleets.Carries;
    forall s, c: Call | Exists(s) && Terminal(s.phase) ensures Moot(s, c.id, c.ask) {
      if c.ask.Issue? { Fleets.FinishedMoot(s, c.id, c.ask); }
    }
  }

  /** The state after the decisions of a log. */
  function StateAfter(f: Flow, exec: string, log: Log): State {
    if |log| == 0 then New(exec) else Folded(f, StateAfter(f, exec, log[..|log| - 1]), log[|log| - 1].evs)
  }

  lemma {:induction false} SameFold(f: Flow, exec: string, maxEvents: nat, log: Log)
    ensures FoldLog(Machinery(f, exec, maxEvents), log) == StateAfter(f, exec, log)
    decreases |log|
  {
    hide Folded;
    if |log| > 0 { SameFold(f, exec, maxEvents, log[..|log| - 1]); }
  }

  /** What the log of an execution records, request by request. */
  function LogTrail(f: Flow, exec: string, log: Log): (t: Trail)
    ensures |t| == |log|
    ensures forall i :: 0 <= i < |log| ==>
              t[i] == Entry(log[i].cmd.id, log[i].cmd.ask, log[i].evs, StateAfter(f, exec, log[..i + 1]))
  {
    seq(|log|, i requires 0 <= i < |log| => Entry(log[i].cmd.id, log[i].cmd.ask, log[i].evs, StateAfter(f, exec, log[..i + 1])))
  }

  lemma LogBefore<S(!new), C(!new), E(!new), T(!new)>(m: Machine<S, C, E, T>, log: seq<Stored<C, E, T>>, k: nat)
    requires LogOk(m, log) && k <= |log|
    ensures LogOk(m, log[..k])
  {
    hide FoldLog, Produces;
    forall i | 0 <= i < k ensures Decidedly(m, log[..k], i) {
      assert log[..k][..i] == log[..i] && Decidedly(m, log, i);
    }
  }

  /** A stored decision is a decision, and fits its request. */
  lemma StoredFits(f: Flow, exec: string, maxEvents: nat, log: Log, i: nat)
    requires LogOk(Machinery(f, exec, maxEvents), log) && i < |log|
    ensures var s, x := StateAfter(f, exec, log[..i]), log[i];
            var t := StateAfter(f, exec, log[..i + 1]);
            Decision(f, s, x.evs, t) && Fitting(f, s, Entry(x.cmd.id, x.cmd.ask, x.evs, t))
  {
    hide Decision, Legal, Declined, Moot, Fitting, StateAfter, FoldLog, Replies, Fires, Fleets.Carries;
    var m := Machinery(f, exec, maxEvents);
    var s, x := StateAfter(f, exec, log[..i]), log[i];
    assert Decidedly(m, log, i);
    SameFold(f, exec, maxEvents, log[..i]);
    NextState(f, exec, log, i);
    var t := StateAfter(f, exec, log[..i + 1]);
    var d := if x.late.None? then x.evs else x.late.value.replaced;
    assert Decides(f, s, x.cmd, x.now, d);
    assert d != [];
    if x.late.Some? { Fleets.MootEnds(s, x.cmd.id, x.cmd.ask); }
    Fleets.EntryFits(f, s, Entry(x.cmd.id, x.cmd.ask, x.evs, t), x.now.src, d[0].body);
  }

  lemma NextState(f: Flow, exec: string, log: Log, i: nat)
    requires i < |log|
    ensures StateAfter(f, exec, log[..i + 1]) == Folded(f, StateAfter(f, exec, log[..i]), log[i].evs)
  {
    assert log[..i + 1][..i] == log[..i];
  }

  /** Whatever engines run concurrently, the log they write is the trail of an execution. */
  lemma {:induction false} LogIsTrail(f: Flow, exec: string, maxEvents: nat, log: Log)
    requires LogOk(Machinery(f, exec, maxEvents), log)
    ensures TrailOk(f, exec, LogTrail(f, exec, log)) && Last(exec, LogTrail(f, exec, log)) == StateAfter(f, exec, log)
    decreases |log|
  {
    hide LogOk, Decision, Fitting, TrailOk, Folded, EventsOf, LogTrail, Machinery;
    var t := LogTrail(f, exec, log);
    if |log| == 0 {
      assert t == [];
      Empty(f, exec);
    } else {
      hide StateAfter;
      var n := |log| - 1;
      LogBefore(Machinery(f, exec, maxEvents), log, n);
      LogIsTrail(f, exec, maxEvents, log[..n]);
      StoredFits(f, exec, maxEvents, log, n);
      OneMore(f, exec, log);
      assert log[..n + 1] == log;
      TrailGrows(f, exec, LogTrail(f, exec, log[..n]), t[n]);
    }
  }

  lemma OneMore(f: Flow, exec: string, log: Log)
    requires |log| > 0
    ensures var n := |log| - 1;
            LogTrail(f, exec, log) == LogTrail(f, exec, log[..n]) + [LogTrail(f, exec, log)[n]]
  {
    hide StateAfter;
    var n := |log| - 1;
    forall i | 0 <= i < n ensures LogTrail(f, exec, log)[i] == LogTrail(f, exec, log[..n])[i] {
      assert log[..n][..i + 1] == log[..i + 1];
    }
  }

  /** What is folded from a log is nothing yet, or between two decisions. */
  lemma PrefixState(f: Flow, exec: string, maxEvents: nat, log: Log, k: nat)
    requires LogOk(Machinery(f, exec, maxEvents), log) && k <= |log|
    ensures var s := StateAfter(f, exec, log[..k]);
            && s == FoldLog(Machinery(f, exec, maxEvents), log[..k]) && s.exec == exec && (Exists(s) <==> k > 0)
            && (if k == 0 then s == New(exec) else Boundary(f, s))
  {
    hide LogOk, Boundary, TrailOk, Folded;
    SameFold(f, exec, maxEvents, log[..k]);
    LogBefore(Machinery(f, exec, maxEvents), log, k);
    LogIsTrail(f, exec, maxEvents, log[..k]);
    LastExists(f, exec, LogTrail(f, exec, log[..k]));
    assert k == 0 ==> log[..k] == [];
  }

  // ---- Engines at work ----

  /** A step at some time, as a step under the circumstances in which it is taken. */
  function Within(step: Step<Call, int>, src: Option<State>): Step<Call, Moment> {
    match step
    case Receive(c) => Receive(c)
    case Load(k) => Load(k)
    case Decide(now) => Step<Call, Moment>.Decide(Moment(now, src))
    case Refuse => Refuse
    case TooLarge => TooLarge
    case Reload(k, when) => Reload(k, Moment(when, None))
    case ReloadFailed => ReloadFailed
    case Append(at) => Step<Call, Moment>.Append(at)
    case AppendUnanswered(at) => AppendUnanswered(at)
    case AppendConflict(retry) => AppendConflict(retry)
    case AppendFailed => AppendFailed
    case AppendNothing => AppendNothing
    case Continue(c, now) => Continue(c, Moment(now, None))
    case Evict => Evict
    case Crash => Crash
  }

  /** The state an engine may decide on: nothing yet, or one between two decisions. */
  lemma CleanState(f: Flow, exec: string, maxEvents: nat, log: Log, st: State, last: nat)
    requires LogOk(Machinery(f, exec, maxEvents), log) && Clean(Machinery(f, exec, maxEvents), log, st, last)
    ensures st.exec == exec && (st == New(exec) || Boundary(f, st))
  {
    hide LogOk, Boundary;
    var k: nat :| IsPrefix(Machinery(f, exec, maxEvents), log, st, last, k);
    PrefixState(f, exec, maxEvents, log, k);
  }

  ghost predicate EngineFits(f: Flow, exec: string, maxEvents: nat, log: Log, e: Server) {
    LogOk(Machinery(f, exec, maxEvents), log) && EngineOk(Machinery(f, exec, maxEvents), log, e)
  }

  /** The step an engine takes deciding its command: a request that is declined drops what is cached. */
  method DecideStep(f: SoundFlow, exec: string, ghost maxEvents: nat, ghost log: Log, e: Server, now: int, src: Option<State>)
    returns (e': Server, ghost did: Step<Call, Moment>)
    requires EngineFits(f, exec, maxEvents, log, e) && e.work.Loaded?
    requires src.Some? ==> Boundary(f, src.value) && src.value.exec != exec
    ensures did == Within(Step<Call, int>.Decide(now), src) || did == Refuse
    ensures EngineStep(Machinery(f, exec, maxEvents), log, log, e, e', did)
  {
    hide LogOk, Boundary, Clean, Declined, Moot, Replies, FoldAll, Legal, Fires, Fleets.Carries;
    CleanState(f, exec, maxEvents, log, e.work.st, e.work.last);
    var c := e.work.cmd;
    var error, evs, t := Fleets.Decide(f, e.work.st, c.id, c.ask, src, now);
    if error.Some? {
      return Engine(None, Idle), Refuse;
    }
    did := Step<Call, Moment>.Decide(Moment(now, src));
    assert evs != [] ==> t == Folded(f, e.work.st, evs);
    hide Decision, Folded;
    assert Decides(f, e.work.st, c, Moment(now, src), evs);
    hide Decides;
    if evs == [] {
      e' := e.(work := Idle);
      return;
    }
    e' := Engine(if e.cache.Some? then Some((t, e.work.last)) else None, Decided(c, t, e.work.last, evs, Moment(now, src), None, false));
  }

  /** The step an engine takes replacing an oversized decision, on the state after k stored decisions. */
  method ReloadStep(f: SoundFlow, exec: string, ghost maxEvents: nat, log: Log, e: Server, k: nat, when: int) returns (e': Server)
    requires EngineFits(f, exec, maxEvents, log, e) && e.work.Reloading? && e.work.since <= k <= |log|
    ensures EngineStep(Machinery(f, exec, maxEvents), log, log, e, e', Within(Reload(k, when), None))
  {
    hide LogOk, Boundary, Declined, Moot, Replies, FoldAll, Legal, Decision, Fires, Fleets.Carries;
    var s := StateAfter(f, exec, log[..k]);
    PrefixState(f, exec, maxEvents, log, k);
    ReplacedLegal(f, exec, maxEvents, log, e, k);
    var evs, t := Fleets.Abort(f, s, e.work.cmd.id, e.work.evs, when);
    AbortFolds(f, s, e.work.evs, evs, t);
    hide Folded;
    e' := e.(work := Decided(e.work.cmd, t, e.work.expected, evs, e.work.now, Some(Late(e.work.evs, Moment(when, None))), false));
  }

  lemma AbortFolds(f: Flow, s: State, d: seq<Event>, evs: seq<Event>, t: State)
    requires if Exists(s) && Terminal(s.phase) then evs == [] && t == s
             else evs != [] && Decision(f, s, evs, t) && Terminal(t.phase) && Forks.Aborted(s, Fleets.FirstOf(s, d), evs)
    ensures t == Folded(f, s, evs) && Aborts(f, s, d, evs)
  {
    hide Boundary, Legal, Misaborted;
  }

  lemma ReplacedLegal(f: Flow, exec: string, maxEvents: nat, log: Log, e: Server, k: nat)
    requires EngineFits(f, exec, maxEvents, log, e) && e.work.Reloading? && e.work.since <= k <= |log|
    ensures e.work.evs != [] && (k == 0 ==> Legal(f, New(exec), e.work.evs))
  {
    hide LogOk, Boundary, Declined, Moot, Replies, Legal, Decision, CacheOk, Fires, Fleets.Carries;
    var m := Machinery(f, exec, maxEvents);
    var j: nat :| ReloadingAt(m, log, e.work, j);
    assert Decides(f, FoldLog(m, log[..j]), e.work.cmd, e.work.now, e.work.evs);
    if k == 0 { assert log[..j] == []; }
  }

  /** The step an engine takes continuing an execution as new. */
  method ContinueStep(f: SoundFlow, exec: string, maxEvents: nat, ghost log: Log, e: Server, c: Call, now: int)
    returns (ok: bool, e': Server)
    requires EngineFits(f, exec, maxEvents, log, e) && e.work.Idle? && e.cache.Some? && c.ask.ContinueAs?
    ensures ok ==> EngineStep(Machinery(f, exec, maxEvents), log, log, e, e', Within(Continue(c, now), None))
  {
    hide LogOk, Boundary, Clean, Declined, Moot, Replies, FoldAll, Legal, Fires, Fleets.Carries;
    var st := e.cache.value.0;
    CleanState(f, exec, maxEvents, log, st, e.cache.value.1);
    var error, evs, t := Fleets.Decide(f, st, c.id, c.ask, None, now);
    ok, e' := error.None? && 0 < |evs| <= maxEvents, e;
    if ok {
      assert t == Folded(f, st, evs);
      hide Decision, Folded;
      assert Decides(f, st, c, Moment(now, None), evs);
      hide Decides;
      e' := e.(work := Decided(c, t, e.cache.value.1, evs, Moment(now, None), None, true));
    }
  }

  /** Whether the log takes the decision of engine e. */
  predicate Takes(log: Log, e: Server, maxEvents: nat, at: nat) {
    && e.work.Decided? && e.work.evs != [] && (e.work.late.None? ==> |e.work.evs| <= maxEvents)
    && Head(log) == e.work.expected && at > Head(log)
  }

  /** A step that only an engine and the log take part in. */
  method PlainStep(f: SoundFlow, exec: string, maxEvents: nat, log: Log, e: Server, step: Step<Call, int>)
    returns (ok: bool, log': Log, e': Server)
    requires EngineFits(f, exec, maxEvents, log, e) && !step.Decide? && !step.Reload? && !step.Continue?
    ensures if ok then EngineStep(Machinery(f, exec, maxEvents), log, log', e, e', Within(step, None)) else log' == log && e' == e
  {
    hide LogOk, EngineOk, Decides, Aborts, Folded, StateAfter, FoldLog, Boundary;
    ok, log', e' := false, log, e;
    match step {
      case Receive(c) =>
        if e.work.Idle? {
          ok := true;
          e' := e.(work := match e.cache
                           case Some(entry) => Loaded(c, entry.0, entry.1)
                           case None => Loading(c, |log|));
        }
      case Load(k) =>
        if e.work.Loading? && e.work.since <= k <= |log| {
          PrefixState(f, exec, maxEvents, log, k);
          ok, e' := true, e.(work := Loaded(e.work.cmd, StateAfter(f, exec, log[..k]), SeqAt(log, k)));
        }
      case Refuse => if e.work.Loaded? { ok, e' := true, Engine(None, Idle); }
      case TooLarge =>
        if e.work.Decided? && e.work.late.None? && |e.work.evs| > maxEvents {
          ok, e' := true, Engine(None, Reloading(e.work.cmd, e.work.expected, e.work.evs, e.work.now, |log|));
        }
      case ReloadFailed => if e.work.Reloading? { ok, e' := true, Engine(None, Idle); }
      case Append(at) =>
        if Takes(log, e, maxEvents, at) {
          ok := true;
          log' := log + [Stored(at, e.work.evs, e.work.cmd, e.work.now, e.work.late)];
          e' := Engine(Some((e.work.st, at)), Idle);
        }
      case AppendUnanswered(at) =>
        if Takes(log, e, maxEvents, at) {
          ok := true;
          log' := log + [Stored(at, e.work.evs, e.work.cmd, e.work.now, e.work.late)];
          e' := if e.work.copied then e.(work := Idle) else Engine(None, Idle);
        }
      case AppendConflict(retry) =>
        if e.work.Decided? && e.work.evs != [] && Head(log) != e.work.expected {
          ok, e' := true, Engine(None, if retry then Loading(e.work.cmd, |log|) else Idle);
        }
      case AppendFailed =>
        if e.work.Decided? { ok, e' := true, if e.work.copied then e.(work := Idle) else Engine(None, Idle); }
      case AppendNothing =>
        if e.work.Decided? && e.work.evs == [] { ok, e' := true, Engine(Some((e.work.st, e.work.expected)), Idle); }
      case Evict => if e.work.Idle? { ok, e' := true, Engine(None, Idle); }
      case Crash => ok, e' := true, Engine(None, Idle);
    }
  }

  // ---- Executions and their engines ----

  /** The place of an execution, with engine who in it. */
  function PlaceOf(places: map<string, Place>, exec: string, who: nat): (w: Place)
    ensures who in w.engines
  {
    var w := if exec in places then places[exec] else World([], map[]);
    if who in w.engines then w else w.(engines := w.engines[who := Engine(None, Idle)])
  }

  /** The state execution exec is forked from: that after the given number of stored decisions of its source, all when it
      is 0; nothing is forked from itself. */
  function Source(f: Flow, places: map<string, Place>, exec: string, ask: Ask): Option<State> {
    if !ask.ForkFrom? || ask.from == exec || ask.from !in places || |places[ask.from].log| == 0 then None
    else Some(StateAfter(f, ask.from, places[ask.from].log[..Taken(places, ask)]))
  }

  function Taken(places: map<string, Place>, ask: Ask): (k: nat)
    requires ask.ForkFrom? && ask.from in places && |places[ask.from].log| > 0
    ensures 0 < k <= |places[ask.from].log|
  {
    var n := |places[ask.from].log|;
    if ask.at == 0 || ask.at > n then n else ask.at
  }

  /** Some engine of some execution takes a step. */
  datatype Turn = Turn(exec: string, who: nat, step: Step<Call, int>)

  /** The state that what engine e is about to decide may be forked from. */
  function SourceFor(f: Flow, places: map<string, Place>, exec: string, e: Server): Option<State> {
    if e.work.Loaded? then Source(f, places, exec, e.work.cmd.ask) else None
  }

  /** What a turn does: nothing if it is not enabled; otherwise a step of the protocol in the place of one execution. */
  ghost predicate TookTurn(f: Flow, maxEvents: nat, before: map<string, Place>, t: Turn, after: map<string, Place>) {
    var w := PlaceOf(before, t.exec, t.who);
    || after == before
    || (exists w': Place, did ::
          && after == before[t.exec := w']
          && (did == Refuse || did == Within(t.step, SourceFor(f, before, t.exec, w.engines[t.who])))
          && Next(Machinery(f, t.exec, maxEvents), w, w', t.who, did))
  }

  // ---- Lines through forks ----

  /** What the executions record that have stored decisions. */
  ghost function Records(f: Flow, places: map<string, Place>): map<string, Trail> {
    map exec | exec in places && places[exec].log != [] :: LogTrail(f, exec, places[exec].log)
  }

  predicate StateIs(f: Flow, exec: string, log: Log, k: int, s: State) { 0 < k <= |log| && StateAfter(f, exec, log[..k]) == s }

  /** What is forked from is the state after some stored decision of the source. */
  ghost predicate Based(f: Flow, places: map<string, Place>, ask: Ask, src: Option<State>) {
    ask.ForkFrom? && src.Some? ==> ask.from in places && exists k :: StateIs(f, ask.from, places[ask.from].log, k, src.value)
  }

  /** So it is of what an engine has decided and not yet stored. */
  ghost predicate EngineBased(f: Flow, places: map<string, Place>, e: Server) {
    e.work.Decided? || e.work.Reloading? ==> Based(f, places, e.work.cmd.ask, e.work.now.src)
  }

  ghost predicate AllBased(f: Flow, places: map<string, Place>) {
    forall exec, i | exec in places && i in places[exec].engines :: EngineBased(f, places, places[exec].engines[i])
  }

  /** Every log is kept and may grow. */
  ghost predicate Grow(places: map<string, Place>, places': map<string, Place>) {
    forall exec | exec in places :: exec in places' && places[exec].log <= places'[exec].log
  }

  lemma BasedStays(f: Flow, places: map<string, Place>, places': map<string, Place>, ask: Ask, src: Option<State>)
    requires Based(f, places, ask, src) && Grow(places, places')
    ensures Based(f, places', ask, src)
  {
    hide StateAfter;
    if ask.ForkFrom? && src.Some? {
      var log, log' := places[ask.from].log, places'[ask.from].log;
      var k :| StateIs(f, ask.from, log, k, src.value);
      assert log'[..k] == log[..k];
      assert StateIs(f, ask.from, log', k, src.value);
    }
  }

  lemma SourceBased(f: Flow, places: map<string, Place>, exec: string, e: Server)
    requires e.work.Loaded?
    ensures Based(f, places, e.work.cmd.ask, SourceFor(f, places, exec, e))
  {
    hide StateAfter;
    var ask, src := e.work.cmd.ask, SourceFor(f, places, exec, e);
    if src.Some? { assert StateIs(f, ask.from, places[ask.from].log, Taken(places, ask), src.value); }
  }

  /** A step keeps what an engine has decided based; the log stays, or takes one decision that is. */
  lemma StepBased(f: Flow, maxEvents: nat, places: map<string, Place>, exec: string, log: Log, log': Log, e: Server, e': Server,
                  step: Step<Call, int>, did: Step<Call, Moment>)
    requires EngineStep(Machinery(f, exec, maxEvents), log, log', e, e', did) && EngineBased(f, places, e)
    requires did == Refuse || did == Within(step, SourceFor(f, places, exec, e))
    ensures EngineBased(f, places, e')
    ensures || log' == log
            || (&& |log'| == |log| + 1 && log <= log'
                && Based(f, places, log'[|log|].cmd.ask, log'[|log|].now.src))
  {
    hide Based, Machinery, StateAfter, FoldLog, SourceFor;
    if did.Decide? { SourceBased(f, places, exec, e); }
    if did.Continue? { NoSource(f, places, did.cmd.ask); }
  }

  lemma NoSource(f: Flow, places: map<string, Place>, ask: Ask)
    ensures Based(f, places, ask, None)
  {
  }

  /** A stored decision that forks was decided by a request to fork, on the state it forks from. */
  lemma StoredForks(f: Flow, exec: string, maxEvents: nat, log: Log, i: nat)
    requires LogOk(Machinery(f, exec, maxEvents), log) && i < |log|
    ensures var x := log[i];
            x.evs != []
            && (IsFork(x.evs[0].body) ==> x.cmd.ask.ForkFrom? && x.now.src.Some? && x.evs[0].body.life.state == x.now.src.value)
  {
    hide Decision, Legal, Declined, Moot, FoldLog, Forks.Aborted, Fires, Fleets.Carries;
    var m := Machinery(f, exec, maxEvents);
    assert Decidedly(m, log, i);
    var s, x := FoldLog(m, log[..i]), log[i];
    var d := if x.late.None? then x.evs else x.late.value.replaced;
    assert Decides(f, s, x.cmd, x.now, d);
    if x.late.Some? && d != [] { Fleets.AbortShape(s, Fleets.FirstOf(s, d), x.evs); }
  }

  function LogOf(places: map<string, Place>, exec: string): Log { if exec in places then places[exec].log else [] }

  /** One more stored decision is one more entry of the trail. */
  lemma RecordsGrow(f: Flow, places: map<string, Place>, exec: string, w': Place)
    requires |w'.log| == |LogOf(places, exec)| + 1 && LogOf(places, exec) <= w'.log
    ensures var trails, e := Records(f, places), LogTrail(f, exec, w'.log)[|w'.log| - 1];
            Records(f, places[exec := w']) == trails[exec := Fleets.TrailOf(trails, exec) + [e]]
  {
    hide StateAfter, LogTrail;
    assert w'.log[..|w'.log| - 1] == LogOf(places, exec);
    OneMore(f, exec, w'.log);
    TrailOfLog(f, places, exec);
  }

  /** The entry is a decision on what the trail ends with. */
  lemma EntryDecided(f: Flow, maxEvents: nat, places: map<string, Place>, exec: string, w': Place)
    requires Inv(Machinery(f, exec, maxEvents), w')
    requires |w'.log| == |LogOf(places, exec)| + 1 && LogOf(places, exec) <= w'.log
    ensures var s, e := Last(exec, Fleets.TrailOf(Records(f, places), exec)), LogTrail(f, exec, w'.log)[|w'.log| - 1];
            Decision(f, s, e.evs, e.state) && Fitting(f, s, e)
  {
    hide Decision, Fitting, EngineOk, LogOk, StateAfter, Machinery, Records, TrailOk;
    var log := LogOf(places, exec);
    assert w'.log[..|log|] == log && w'.log[..|log| + 1] == w'.log;
    StoredFits(f, exec, maxEvents, w'.log, |log|);
    TrailOfLog(f, places, exec);
    LogBefore(Machinery(f, exec, maxEvents), w'.log, |log|);
    LogIsTrail(f, exec, maxEvents, log);
  }

  /** If it forks, it was taken after a decision of its source. */
  lemma EntrySourced(f: Flow, maxEvents: nat, places: map<string, Place>, exec: string, w': Place, n: nat)
    requires Inv(Machinery(f, exec, maxEvents), w') && n < |w'.log|
    requires Based(f, places, w'.log[n].cmd.ask, w'.log[n].now.src)
    ensures LogTrail(f, exec, w'.log)[n].evs != [] && Fleets.Sourced(Records(f, places), LogTrail(f, exec, w'.log)[n])
  {
    hide EngineOk, LogOk, StateAfter, Machinery;
    StoredForks(f, exec, maxEvents, w'.log, n);
    var x := w'.log[n];
    if IsFork(x.evs[0].body) {
      var from := x.cmd.ask.from;
      var k :| StateIs(f, from, places[from].log, k, x.now.src.value);
      assert Fleets.TakenAfter(Records(f, places)[from], k, x.evs[0].body.life.state);
    }
  }

  lemma TrailOfLog(f: Flow, places: map<string, Place>, exec: string)
    ensures Fleets.TrailOf(Records(f, places), exec) == LogTrail(f, exec, LogOf(places, exec))
  {
    hide StateAfter;
  }

  class Cluster {
    const f: SoundFlow
    const maxEvents: nat
    var places: map<string, Place>

    /** Where the line of each execution begins, and what of it precedes the execution itself. */
    ghost var roots: map<string, string>
    ghost var priors: map<string, seq<Event>>

    ghost predicate Valid()
      reads this
    {
      && (forall exec | exec in places :: Inv(Machinery(f, exec, maxEvents), places[exec]))
      && AllBased(f, places) && Fleets.Lines(f, Records(f, places), roots, priors)
    }

    constructor (f: SoundFlow, maxEvents: nat)
      ensures Valid() && this.f == f && this.maxEvents == maxEvents && places == map[]
    {
      this.f, this.maxEvents, places := f, maxEvents, map[];
      roots, priors := map[], map[];
    }

    /** Takes a turn if it is enabled. What happens is a step of the protocol: that of the turn, or the refusal of a request
        that is declined. */
    method Take(t: Turn)
      requires Valid()
      modifies this
      ensures Valid() && TookTurn(f, maxEvents, old(places), t, places)
    {
      hide Inv, EngineStep, Boundary, PlaceOf, Within, Machinery, AllBased, Fleets.Lines, SourceFor;
      var w := PlaceOf(places, t.exec, t.who);
      EngineJoins(f, t.exec, maxEvents, places, t.who);
      var e := w.engines[t.who];
      EngineIn(f, t.exec, maxEvents, w, t.who);
      var src := SourceFor(f, places, t.exec, e);
      SourceRests(f, maxEvents, places, t.exec, e);
      var ok, log', e', did := Move(f, t.exec, maxEvents, w.log, e, t.step, src);
      if ok {
        var w' := World(log', w.engines[t.who := e']);
        MachineryIsSane(f, t.exec, maxEvents);
        NextInv(Machinery(f, t.exec, maxEvents), w, w', t.who, did);
        roots, priors := TurnLines(f, maxEvents, places, roots, priors, t, w', did);
        places := places[t.exec := w'];
      }
    }
  }

  /** A turn keeps what engines have decided based on stored decisions, and the lines of executions. */
  lemma TurnLines(f: Flow, maxEvents: nat, places: map<string, Place>, roots: map<string, string>, priors: map<string, seq<Event>>,
                  t: Turn, w': Place, did: Step<Call, Moment>)
    returns (roots': map<string, string>, priors': map<string, seq<Event>>)
    requires AllBased(f, places) && Fleets.Lines(f, Records(f, places), roots, priors) && Inv(Machinery(f, t.exec, maxEvents), w')
    requires var w := PlaceOf(places, t.exec, t.who);
             && (did == Refuse || did == Within(t.step, SourceFor(f, places, t.exec, w.engines[t.who])))
             && Next(Machinery(f, t.exec, maxEvents), w, w', t.who, did)
    ensures AllBased(f, places[t.exec := w']) && Fleets.Lines(f, Records(f, places[t.exec := w']), roots', priors')
  {
    hide Inv, EngineStep, Within, Machinery, Fleets.Lines, SourceFor, Based, Records, Decision, Fitting, LogTrail;
    var w := PlaceOf(places, t.exec, t.who);
    assert EngineBased(f, places, w.engines[t.who]);
    StepBased(f, maxEvents, places, t.exec, w.log, w'.log, w.engines[t.who], w'.engines[t.who], t.step, did);
    StayBased(f, places, t.exec, t.who, w');
    roots', priors' := roots, priors;
    if w'.log == w.log {
      RecordsStay(f, places, t.exec, w');
    } else {
      RecordsGrow(f, places, t.exec, w');
      EntryDecided(f, maxEvents, places, t.exec, w');
      EntrySourced(f, maxEvents, places, t.exec, w', |w.log|);
      roots', priors' := Fleets.LinesGrow(f, Records(f, places), roots, priors, t.exec, LogTrail(f, t.exec, w'.log)[|w'.log| - 1]);
    }
  }

  lemma StayBased(f: Flow, places: map<string, Place>, exec: string, who: nat, w': Place)
    requires var w := PlaceOf(places, exec, who);
             && AllBased(f, places) && w.log <= w'.log && who in w'.engines && w'.engines == w.engines[who := w'.engines[who]]
             && EngineBased(f, places, w'.engines[who])
    ensures AllBased(f, places[exec := w'])
  {
    hide Based;
    var places' := places[exec := w'];
    assert Grow(places, places');
    forall x, i | x in places' && i in places'[x].engines ensures EngineBased(f, places', places'[x].engines[i]) {
      var e := places'[x].engines[i];
      assert EngineBased(f, places, e);
      if e.work.Decided? || e.work.Reloading? { BasedStays(f, places, places', e.work.cmd.ask, e.work.now.src); }
    }
  }

  lemma RecordsStay(f: Flow, places: map<string, Place>, exec: string, w': Place)
    requires w'.log == LogOf(places, exec)
    ensures Records(f, places[exec := w']) == Records(f, places)
  {
    hide StateAfter, LogTrail;
  }

  /** Takes a step if it is enabled. */
  method Move(f: SoundFlow, exec: string, maxEvents: nat, log: Log, e: Server, step: Step<Call, int>, src: Option<State>)
    returns (ok: bool, log': Log, e': Server, ghost did: Step<Call, Moment>)
    requires EngineFits(f, exec, maxEvents, log, e) && (src.Some? ==> Boundary(f, src.value) && src.value.exec != exec)
    ensures ok ==> did == Refuse || did == Within(step, src)
    ensures ok ==> EngineStep(Machinery(f, exec, maxEvents), log, log', e, e', did)
  {
    hide EngineFits, EngineStep, Boundary, Machinery;
    ok, log', e', did := false, log, e, Within(step, None);
    if step.Decide? {
      if e.work.Loaded? {
        e', did := DecideStep(f, exec, maxEvents, log, e, step.now, src);
        ok := true;
      }
    } else if step.Reload? {
      if e.work.Reloading? && e.work.since <= step.k <= |log| {
        e' := ReloadStep(f, exec, maxEvents, log, e, step.k, step.when);
        ok := true;
      }
    } else if step.Continue? {
      if e.work.Idle? && e.cache.Some? && step.cmd.ask.ContinueAs? {
        ok, e' := ContinueStep(f, exec, maxEvents, log, e, step.cmd, step.now);
      }
    } else {
      ok, log', e' := PlainStep(f, exec, maxEvents, log, e, step);
    }
  }

  lemma EngineJoins(f: Flow, exec: string, maxEvents: nat, places: map<string, Place>, who: nat)
    requires exec in places ==> Inv(Machinery(f, exec, maxEvents), places[exec])
    ensures Inv(Machinery(f, exec, maxEvents), PlaceOf(places, exec, who))
  {
    hide Decidedly, Clean;
  }

  lemma EngineIn(f: Flow, exec: string, maxEvents: nat, w: Place, who: nat)
    requires Inv(Machinery(f, exec, maxEvents), w) && who in w.engines
    ensures EngineFits(f, exec, maxEvents, w.log, w.engines[who])
  {
    hide LogOk, EngineOk;
  }

  lemma SourceRests(f: Flow, maxEvents: nat, places: map<string, Place>, exec: string, e: Server)
    requires forall x | x in places :: Inv(Machinery(f, x, maxEvents), places[x])
    ensures var src := SourceFor(f, places, exec, e); src.Some? ==> Boundary(f, src.value) && src.value.exec != exec
  {
    hide LogOk, EngineOk, Boundary;
    if SourceFor(f, places, exec, e).Some? {
      var ask := e.work.cmd.ask;
      assert Inv(Machinery(f, ask.from, maxEvents), places[ask.from]);
      PrefixState(f, ask.from, maxEvents, places[ask.from].log, Taken(places, ask));
    }
  }

  // ---- What is stored ----

  /** The events of a log with the sequences of their decisions. */
  function Flat(log: Log): seq<Rec> {
    if |log| == 0 then []
    else
      var x := log[|log| - 1];
      Flat(log[..|log| - 1]) + seq(|x.evs|, i requires 0 <= i < |x.evs| => Rec(x.at, x.evs[i]))
  }

  lemma {:induction false} FlatIs(f: Flow, exec: string, log: Log)
    ensures Events(Flat(log)) == EventsOf(LogTrail(f, exec, log))
    ensures |log| > 0 ==> forall i :: 0 <= i < |Flat(log)| ==> exists k :: 0 <= k < |log| && Flat(log)[i].at == log[k].at
    decreases |log|
  {
    hide StateAfter, LogTrail;
    var t := LogTrail(f, exec, log);
    if |log| == 0 {
      assert t == [] && DecisionsOf(t) == [];
    } else {
      var n := |log| - 1;
      FlatIs(f, exec, log[..n]);
      OneMore(f, exec, log);
      assert DecisionsOf(t)[..n] == DecisionsOf(LogTrail(f, exec, log[..n]));
      assert Events(Flat(log)) == Events(Flat(log[..n])) + log[n].evs;
      forall i | 0 <= i < |Flat(log)| ensures exists k :: 0 <= k < |log| && Flat(log)[i].at == log[k].at {
        if i < |Flat(log[..n])| {
          var k :| 0 <= k < n && Flat(log[..n])[i].at == log[..n][k].at;
          assert log[k].at == Flat(log)[i].at;
        } else {
          assert log[n].at == Flat(log)[i].at;
        }
      }
    }
  }

  lemma {:induction false} FlatSorted(log: Log)
    requires forall i :: 0 <= i < |log| ==> log[i].at > 0
    requires forall i, j :: 0 <= i < j < |log| ==> log[i].at < log[j].at
    ensures Sorted(Flat(log)) && forall i :: 0 <= i < |Flat(log)| ==> |log| > 0 && Flat(log)[i].at <= log[|log| - 1].at
    decreases |log|
  {
    if |log| > 0 {
      var n := |log| - 1;
      FlatSorted(log[..n]);
      assert n > 0 ==> log[..n][n - 1].at < log[n].at;
    }
  }

  /** What engines write can be read back. */
  lemma LogReadable(f: Flow, exec: string, maxEvents: nat, log: Log)
    requires LogOk(Machinery(f, exec, maxEvents), log)
    ensures HistoryOk(f, exec, Flat(log))
  {
    hide TrailOk, Legal, FoldAll, Misaborted, HistoryOk, Decidedly, Flat, EventsOf, Sorted;
    LogIsTrail(f, exec, maxEvents, log);
    FlatIs(f, exec, log);
    FlatSorted(log);
    TrailLegal(f, exec, LogTrail(f, exec, log));
    if Misaborted(New(exec), Events(Flat(log))) {
      MisabortedIsHistory(f, exec, Flat(log));
    } else {
      LegalIsHistory(f, exec, Flat(log));
    }
  }

  lemma TrailLegal(f: Flow, exec: string, trail: Trail)
    requires TrailOk(f, exec, trail)
    ensures FoldAll(f, New(exec), EventsOf(trail)).Some? && ForksFirst(EventsOf(trail))
    ensures Legal(f, New(exec), EventsOf(trail)) <==> !Misaborted(New(exec), EventsOf(trail))
  {
    hide Run, Fitting, Legal, FoldAll, Misaborted;
    RunIsLegal(f, exec, DecisionsOf(trail), StatesOf(exec, trail));
  }

  /** What holds of the log of an execution: every decision is one its request produces on the fold of the log before it;
      the execution is never stuck, a command that took effect has none again, and the events are in order unless it is
      the aborted fork of an execution with children; and the log can be read back. */
  ghost predicate WellKept(f: Flow, exec: string, maxEvents: nat, log: Log) {
    var trail := LogTrail(f, exec, log);
    && (forall i :: 0 <= i < |log| ==>
          log[i].evs != [] && Produces(Machinery(f, exec, maxEvents), StateAfter(f, exec, log[..i]), log[i].cmd, log[i].now,
                                       log[i].late, log[i].evs))
    && Fleets.NeverStuck(f, exec, trail) && NotAgain(exec, trail)
    && (log != [] ==> (Fleets.Orderly(f, exec, trail) <==> !Misaborted(New(exec), EventsOf(trail))))
    && HistoryOk(f, exec, Flat(log))
  }

  lemma LogKept(f: SoundFlow, exec: string, maxEvents: nat, log: Log)
    requires LogOk(Machinery(f, exec, maxEvents), log)
    ensures WellKept(f, exec, maxEvents, log)
  {
    hide TrailOk, Misaborted, Fleets.NeverStuck, Fleets.Orderly, NotAgain, HistoryOk, Produces, EventsOf, Flat, StateAfter, FoldLog,
         Machinery, Sound;
    LogIsTrail(f, exec, maxEvents, log);
    LogReadable(f, exec, maxEvents, log);
    forall i | 0 <= i < |log|
      ensures log[i].evs != [] && Produces(Machinery(f, exec, maxEvents), StateAfter(f, exec, log[..i]), log[i].cmd, log[i].now,
                                           log[i].late, log[i].evs)
    {
      assert Decidedly(Machinery(f, exec, maxEvents), log, i);
      SameFold(f, exec, maxEvents, log[..i]);
    }
    Fleets.TrailUnstuck(f, exec, LogTrail(f, exec, log));
    Redelivered(f, exec, LogTrail(f, exec, log));
    if log != [] { Fleets.TrailHolds(f, exec, LogTrail(f, exec, log)); }
  }

  /** Validates a flow and, if it is accepted, lets any number of engines serve executions of it, in any order of their
      steps: what they have stored is well kept at the end, wherever that is, and accounts for the states of executions
      through all their forks. stages are the executions and their engines before and after each turn; roots and priors
      say where the line of each execution begins and what of it precedes the execution. */
  method Serve(src: Graphs.Source, maxEvents: nat, turns: seq<Turn>)
    returns (flow: Option<Flow>, logs: map<string, Log>, ghost stages: seq<map<string, Place>>, ghost roots: map<string, string>,
             ghost priors: map<string, seq<Event>>)
    ensures flow.Some? <==> exists s :: Graphs.WellFormed(src, s)
    ensures flow.Some? ==> exists ix :: Graphs.Accepted(src, ix) && flow.value == Graphs.Built(src, ix)
    ensures flow.None? ==> logs == map[]
    ensures flow.Some? ==>
              && |stages| == |turns| + 1 && stages[0] == map[] && logs.Keys == stages[|turns|].Keys
              && (forall exec | exec in logs && exec in stages[|turns|] :: logs[exec] == stages[|turns|][exec].log)
              && forall i :: 0 <= i < |turns| ==> TookTurn(flow.value, maxEvents, stages[i], turns[i], stages[i + 1])
    ensures forall exec | exec in logs :: WellKept(flow.value, exec, maxEvents, logs[exec])
    ensures flow.Some? ==> forall exec | exec in logs && logs[exec] != [] :: InLine(flow.value, stages[|turns|], roots, priors, exec)
  {
    hide WellKept, Sound, Graphs.Accepted, Graphs.WellFormed, Inv, TookTurn, AllBased, Fleets.Lines, InLine, Records, Machinery, Graphs.Built;
    var v := new Validation.Validator(src);
    var ok := v.Validate();
    if !ok {
      return None, map[], [], map[], map[];
    }
    var f: SoundFlow := Graphs.Built(src, Graphs.Indexes(v.byId, v.startId, v.branchOf, v.joinOf));
    var cluster := new Cluster(f, maxEvents);
    stages := [cluster.places];
    for i := 0 to |turns|
      invariant fresh(cluster) && cluster.Valid() && cluster.f == f && cluster.maxEvents == maxEvents
      invariant |stages| == i + 1 && stages[0] == map[] && stages[i] == cluster.places
      invariant forall j :: 0 <= j < i ==> TookTurn(f, maxEvents, stages[j], turns[j], stages[j + 1])
    {
      cluster.Take(turns[i]);
      stages := stages + [cluster.places];
    }
    forall exec | exec in cluster.places ensures WellKept(f, exec, maxEvents, cluster.places[exec].log) {
      PlaceKept(f, exec, maxEvents, cluster.places[exec]);
    }
    forall exec | exec in cluster.places && cluster.places[exec].log != []
      ensures InLine(f, cluster.places, cluster.roots, cluster.priors, exec)
    {
      LinesHold(f, cluster.places, cluster.roots, cluster.priors, exec);
    }
    return Some(f), map exec | exec in cluster.places :: cluster.places[exec].log, stages, cluster.roots, cluster.priors;
  }

  /** The line of the execution begins with that of its source if it is a fork; unless it is the fork of a finished
      execution, or an aborted one of an execution with children, its events after those account for its state. */
  ghost predicate InLine(f: Flow, places: map<string, Place>, roots: map<string, string>, priors: map<string, seq<Event>>, exec: string) {
    && exec in places && exec in roots && exec in priors && Fleets.Tied(Records(f, places), roots, priors, exec)
    && (var trail := LogTrail(f, exec, places[exec].log);
        Fleets.Balanced(f, exec, trail, roots[exec], priors[exec]) || Inert(exec, trail))
  }

  lemma LinesHold(f: Flow, places: map<string, Place>, roots: map<string, string>, priors: map<string, seq<Event>>, exec: string)
    requires Fleets.Lines(f, Records(f, places), roots, priors) && exec in places && places[exec].log != []
    ensures InLine(f, places, roots, priors, exec)
  {
    hide Fleets.Tied, Fleets.Balanced, Fleets.Kept, Inert, LogTrail;
    var trail := LogTrail(f, exec, places[exec].log);
    assert exec in Records(f, places) && Records(f, places)[exec] == trail;
    if !Inert(exec, trail) { Fleets.KeptBalanced(f, exec, trail, roots[exec], priors[exec]); }
  }

  lemma PlaceKept(f: SoundFlow, exec: string, maxEvents: nat, w: Place)
    requires Inv(Machinery(f, exec, maxEvents), w)
    ensures WellKept(f, exec, maxEvents, w.log)
  {
    hide LogOk, EngineOk, WellKept, Machinery, Sound;
    LogKept(f, exec, maxEvents, w.log);
  }
}
