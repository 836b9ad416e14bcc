/** The log protocol: engines with private caches decide commands and append decisions to one log,
    conditionally on the sequence of the last one. */
module LogProtocol {
  import opened Values

  /** The state machine the engines run: decides and aborts say which events a command may produce in a state under given
      circumstances (the time, what else is read), and which may replace an oversized decision. */
  datatype Machine<!S(!new), !C(!new), !E(!new), !T(!new)> = Machine(
    init: S, fold: (S, seq<E>) -> S, decides: (S, C, T, seq<E>) -> bool, aborts: (S, seq<E>, C, T, seq<E>) -> bool,
    final: S -> bool, maxEvents: nat)

  /** A finished execution decides nothing, and only a finished one aborts to nothing. */
  ghost predicate Sane<S(!new), C(!new), E(!new), T(!new)>(m: Machine<S, C, E, T>) {
    && (forall s, c, t, evs | m.final(s) && m.decides(s, c, t, evs) :: evs == [])
    && (forall s, d, c, t | m.aborts(s, d, c, t, []) :: m.final(s))
    && (forall s :: m.fold(s, []) == s)
  }

  /** An oversized decision that was replaced, and under which circumstances. */
  datatype Late<E, T> = Late(replaced: seq<E>, when: T)

  /** A stored decision: its stream sequence, its events, and what it was decided from. */
  datatype Stored<C, E, T> = Stored(at: nat, evs: seq<E>, cmd: C, now: T, late: Option<Late<E, T>>)

  /** What an engine is doing with a command. */
  datatype Work<S, C, E, T> =
    | Idle
    | Loading(cmd: C, since: nat)
    | Loaded(cmd: C, st: S, last: nat)
    | Decided(cmd: C, st: S, expected: nat, evs: seq<E>, now: T, late: Option<Late<E, T>>, copied: bool)
    | Reloading(cmd: C, expected: nat, evs: seq<E>, now: T, since: nat)

  /** cache is the state of the execution and the sequence of its last decision. */
  datatype Engine<S, C, E, T> = Engine(cache: Option<(S, nat)>, work: Work<S, C, E, T>)

  datatype World<S, C, E, T> = World(log: seq<Stored<C, E, T>>, engines: map<nat, Engine<S, C, E, T>>)

  function FoldLog<S(!new), C(!new), E(!new), T(!new)>(m: Machine<S, C, E, T>, log: seq<Stored<C, E, T>>): S {
    if |log| == 0 then m.init else m.fold(FoldLog(m, log[..|log| - 1]), log[|log| - 1].evs)
  }

  /** The sequence of the k-th decision; 0 before the first. */
  function SeqAt<C, E, T>(log: seq<Stored<C, E, T>>, k: nat): nat
    requires k <= |log|
  {
    if k == 0 then 0 else log[k - 1].at
  }

  function Head<C, E, T>(log: seq<Stored<C, E, T>>): nat { SeqAt(log, |log|) }

  /** Command c produces evs in state s: its decision, or the failure that replaces an oversized one. */
  ghost predicate Produces<S(!new), C(!new), E(!new), T(!new)>(
    m: Machine<S, C, E, T>, s: S, c: C, now: T, late: Option<Late<E, T>>, evs: seq<E>)
  {
    match late
    case None => m.decides(s, c, now, evs)
    case Some(l) => |l.replaced| > m.maxEvents && m.decides(s, c, now, l.replaced) && m.aborts(s, l.replaced, c, l.when, evs)
  }

  // ---- Steps ----

  datatype Step<C, T> =
    | Receive(cmd: C)
    | Load(k: nat)
    | Decide(now: T)
    | Refuse
    | TooLarge
    | Reload(k: nat, when: T)
    | ReloadFailed
    | Append(at: nat)
    | AppendUnanswered(at: nat)
    | AppendConflict(retry: bool)
    | AppendFailed
    | AppendNothing
    | Continue(cmd: C, now: T)
    | Evict
    | Crash

  /** Engine e takes a step; the log it leaves is log'. */
  ghost predicate EngineStep<S(!new), C(!new), E(!new), T(!new)>(
    m: Machine<S, C, E, T>, log: seq<Stored<C, E, T>>, log': seq<Stored<C, E, T>>, e: Engine<S, C, E, T>, e': Engine<S, C, E, T>, step: Step<C, T>)
  {
    match step
    case Receive(c) => // a cached state is used as it is; otherwise the log is read
      && e.work.Idle? && log' == log && e'.cache == e.cache
      && e'.work == (match e.cache
                     case Some(entry) => Loaded(c, entry.0, entry.1)
                     case None => Loading(c, |log|))
    case Load(k) => // what is read is at least what was stored when the read began
      && e.work.Loading? && e.work.since <= k <= |log| && log' == log
      && e' == e.(work := Loaded(e.work.cmd, FoldLog(m, log[..k]), SeqAt(log, k)))
    case Decide(now) => // a decision changes the cached state in place
      && e.work.Loaded? && log' == log
      && (|| (m.decides(e.work.st, e.work.cmd, now, []) && e' == e.(work := Idle))
          || (&& e'.work.Decided? && e'.work.evs != [] && m.decides(e.work.st, e.work.cmd, now, e'.work.evs)
              && (var st := m.fold(e.work.st, e'.work.evs);
                  e' == Engine(if e.cache.Some? then Some((st, e.work.last)) else None,
                               Decided(e.work.cmd, st, e.work.last, e'.work.evs, now, None, false)))))
    case Refuse => e.work.Loaded? && log' == log && e' == Engine(None, Idle)
    case TooLarge =>
      && e.work.Decided? && e.work.late.None? && |e.work.evs| > m.maxEvents && log' == log
      && e' == Engine(None, Reloading(e.work.cmd, e.work.expected, e.work.evs, e.work.now, |log|))
    case Reload(k, when) => // the replaced decision keeps the sequence expected before
      && e.work.Reloading? && e.work.since <= k <= |log| && log' == log && e'.work.Decided?
      && (var s := FoldLog(m, log[..k]);
          && m.aborts(s, e.work.evs, e.work.cmd, when, e'.work.evs)
          && e' == e.(work := Decided(e.work.cmd, m.fold(s, e'.work.evs), e.work.expected, e'.work.evs, e.work.now,
                                      Some(Late(e.work.evs, when)), false)))
    case ReloadFailed => e.work.Reloading? && log' == log && e' == Engine(None, Idle)
    case Append(at) => Appends(m, log, log', e, at) && e' == Engine(Some((e.work.st, at)), Idle)
    case AppendUnanswered(at) => // stored, but the engine sees an error
      Appends(m, log, log', e, at) && e' == (if e.work.copied then e.(work := Idle) else Engine(None, Idle))
    case AppendConflict(retry) =>
      && e.work.Decided? && e.work.evs != [] && Head(log) != e.work.expected && log' == log
      && e' == Engine(None, if retry then Loading(e.work.cmd, |log|) else Idle)
    case AppendFailed =>
      && e.work.Decided? && log' == log && e' == (if e.work.copied then e.(work := Idle) else Engine(None, Idle))
    case AppendNothing =>
      e.work.Decided? && e.work.evs == [] && log' == log && e' == Engine(Some((e.work.st, e.work.expected)), Idle)
    case Continue(c, now) => // decided on a copy: the cached state does not move
      && e.work.Idle? && e.cache.Some? && log' == log && e'.work.Decided?
      && 0 < |e'.work.evs| <= m.maxEvents && m.decides(e.cache.value.0, c, now, e'.work.evs)
      && e' == e.(work := Decided(c, m.fold(e.cache.value.0, e'.work.evs), e.cache.value.1, e'.work.evs, now, None, true))
    case Evict => e.work.Idle? && log' == log && e' == Engine(None, Idle)
    case Crash => log' == log && e' == Engine(None, Idle)
  }

  /** The log takes the decision of engine e: its last sequence is the expected one. */
  ghost predicate Appends<S(!new), C(!new), E(!new), T(!new)>(
    m: Machine<S, C, E, T>, log: seq<Stored<C, E, T>>, log': seq<Stored<C, E, T>>, e: Engine<S, C, E, T>, at: nat)
  {
    && e.work.Decided? && e.work.evs != [] && (e.work.late.None? ==> |e.work.evs| <= m.maxEvents) && Head(log) == e.work.expected && at > Head(log)
    && log' == log + [Stored(at, e.work.evs, e.work.cmd, e.work.now, e.work.late)]
  }

  ghost predicate Next<S(!new), C(!new), E(!new), T(!new)>(
    m: Machine<S, C, E, T>, w: World<S, C, E, T>, w': World<S, C, E, T>, i: nat, step: Step<C, T>)
  {
    && i in w.engines && i in w'.engines && w'.engines == w.engines[i := w'.engines[i]]
    && EngineStep(m, w.log, w'.log, w.engines[i], w'.engines[i], step)
  }

  // ---- Invariant ----

  /** Sequences grow, and every decision is what its command produces after the decisions before it. */
  ghost predicate LogOk<S(!new), C(!new), E(!new), T(!new)>(m: Machine<S, C, E, T>, log: seq<Stored<C, E, T>>) {
    && (forall i :: 0 <= i < |log| ==> log[i].at > 0)
    && (forall i, j :: 0 <= i < j < |log| ==> log[i].at < log[j].at)
    && (forall i :: 0 <= i < |log| ==> Decidedly(m, log, i))
  }

  ghost predicate Decidedly<S(!new), C(!new), E(!new), T(!new)>(m: Machine<S, C, E, T>, log: seq<Stored<C, E, T>>, i: nat)
    requires i < |log|
  {
    && log[i].evs != [] && (log[i].late.None? ==> |log[i].evs| <= m.maxEvents)
    && Produces(m, FoldLog(m, log[..i]), log[i].cmd, log[i].now, log[i].late, log[i].evs)
  }

  /** State st is the fold of the first k decisions, with the sequence of the last; the sequence may be older once the
      execution has finished. */
  ghost predicate IsPrefix<S(!new), C(!new), E(!new), T(!new)>(m: Machine<S, C, E, T>, log: seq<Stored<C, E, T>>, st: S, last: nat, k: nat) {
    k <= |log| && st == FoldLog(m, log[..k]) && (last == SeqAt(log, k) || m.final(st))
  }

  ghost predicate Clean<S(!new), C(!new), E(!new), T(!new)>(m: Machine<S, C, E, T>, log: seq<Stored<C, E, T>>, st: S, last: nat) {
    exists k: nat :: IsPrefix(m, log, st, last, k)
  }

  /** evs is what cmd produces on the first j decisions, or what replaces it on the first k; expected is that of j. */
  ghost predicate DecidedAt<S(!new), C(!new), E(!new), T(!new)>(
    m: Machine<S, C, E, T>, log: seq<Stored<C, E, T>>, w: Work<S, C, E, T>, j: nat, k: nat)
    requires w.Decided?
  {
    && j <= k <= |log| && w.expected == SeqAt(log, j)
    && (match w.late
        case None => k == j && m.decides(FoldLog(m, log[..j]), w.cmd, w.now, w.evs)
        case Some(l) =>
          && |l.replaced| > m.maxEvents && m.decides(FoldLog(m, log[..j]), w.cmd, w.now, l.replaced)
          && m.aborts(FoldLog(m, log[..k]), l.replaced, w.cmd, l.when, w.evs))
    && w.st == m.fold(FoldLog(m, log[..k]), w.evs)
  }

  ghost predicate ReloadingAt<S(!new), C(!new), E(!new), T(!new)>(m: Machine<S, C, E, T>, log: seq<Stored<C, E, T>>, w: Work<S, C, E, T>, j: nat)
    requires w.Reloading?
  {
    && j <= w.since <= |log| && w.expected == SeqAt(log, j)
    && m.decides(FoldLog(m, log[..j]), w.cmd, w.now, w.evs) && |w.evs| > m.maxEvents
  }

  ghost predicate WorkOk<S(!new), C(!new), E(!new), T(!new)>(m: Machine<S, C, E, T>, log: seq<Stored<C, E, T>>, w: Work<S, C, E, T>) {
    match w
    case Idle => true
    case Loading(_, since) => since <= |log|
    case Loaded(_, st, last) => Clean(m, log, st, last)
    case Decided(_, _, _, _, _, _, _) => exists j: nat, k: nat :: DecidedAt(m, log, w, j, k)
    case Reloading(_, _, _, _, _) => exists j: nat :: ReloadingAt(m, log, w, j)
  }

  /** The cached state is the fold of a prefix of the log, except while a decision made on it is being appended. */
  ghost predicate CacheOk<S(!new), C(!new), E(!new), T(!new)>(m: Machine<S, C, E, T>, log: seq<Stored<C, E, T>>, e: Engine<S, C, E, T>) {
    e.cache.Some? && (!e.work.Decided? || e.work.copied) ==> Clean(m, log, e.cache.value.0, e.cache.value.1)
  }

  ghost predicate EngineOk<S(!new), C(!new), E(!new), T(!new)>(m: Machine<S, C, E, T>, log: seq<Stored<C, E, T>>, e: Engine<S, C, E, T>) {
    WorkOk(m, log, e.work) && CacheOk(m, log, e)
  }

  ghost predicate Inv<S(!new), C(!new), E(!new), T(!new)>(m: Machine<S, C, E, T>, w: World<S, C, E, T>) {
    LogOk(m, w.log) && forall i | i in w.engines :: EngineOk(m, w.log, w.engines[i])
  }

  ghost predicate Init<S(!new), C(!new), E(!new), T(!new)>(w: World<S, C, E, T>) {
    w.log == [] && forall i | i in w.engines :: w.engines[i] == Engine(None, Idle)
  }

  lemma InitInv<S(!new), C(!new), E(!new), T(!new)>(m: Machine<S, C, E, T>, w: World<S, C, E, T>)
    requires Init(w)
    ensures Inv(m, w)
  {
  }

  // ---- A growing log keeps what was known ----

  lemma GrownClean<S(!new), C(!new), E(!new), T(!new)>(m: Machine<S, C, E, T>, log: seq<Stored<C, E, T>>, x: Stored<C, E, T>, st: S, last: nat)
    requires Clean(m, log, st, last)
    ensures Clean(m, log + [x], st, last)
  {
    var k: nat :| IsPrefix(m, log, st, last, k);
    assert (log + [x])[..k] == log[..k];
    assert IsPrefix(m, log + [x], st, last, k);
  }

  lemma GrownWork<S(!new), C(!new), E(!new), T(!new)>(m: Machine<S, C, E, T>, log: seq<Stored<C, E, T>>, x: Stored<C, E, T>, w: Work<S, C, E, T>)
    requires WorkOk(m, log, w)
    ensures WorkOk(m, log + [x], w)
  {
    match w {
      case Idle =>
      case Loading(_, _) =>
      case Loaded(_, st, last) => GrownClean(m, log, x, st, last);
      case Decided(_, _, _, _, _, _, _) =>
        var j: nat, k: nat :| DecidedAt(m, log, w, j, k);
        assert (log + [x])[..j] == log[..j] && (log + [x])[..k] == log[..k];
        assert DecidedAt(m, log + [x], w, j, k);
      case Reloading(_, _, _, _, _) =>
        var j: nat :| ReloadingAt(m, log, w, j);
        assert (log + [x])[..j] == log[..j];
        assert ReloadingAt(m, log + [x], w, j);
    }
  }

  lemma GrownEngine<S(!new), C(!new), E(!new), T(!new)>(m: Machine<S, C, E, T>, log: seq<Stored<C, E, T>>, x: Stored<C, E, T>, e: Engine<S, C, E, T>)
    requires EngineOk(m, log, e)
    ensures EngineOk(m, log + [x], e)
  {
    hide WorkOk, Clean;
    GrownWork(m, log, x, e.work);
    if e.cache.Some? && (!e.work.Decided? || e.work.copied) { GrownClean(m, log, x, e.cache.value.0, e.cache.value.1); }
  }

  // ---- The step that appends ----

  /** An append that the log takes was decided on all of it. */
  lemma AppendKeeps<S(!new), C(!new), E(!new), T(!new)>(
    m: Machine<S, C, E, T>, log: seq<Stored<C, E, T>>, log': seq<Stored<C, E, T>>, e: Engine<S, C, E, T>, at: nat)
    requires LogOk(m, log) && WorkOk(m, log, e.work) && Appends(m, log, log', e, at)
    ensures LogOk(m, log') && IsPrefix(m, log', e.work.st, at, |log'|)
  {
    var w := e.work;
    var j: nat, k: nat :| DecidedAt(m, log, w, j, k);
    assert j == |log|;
    assert log[..|log|] == log && log'[..|log|] == log && log'[..|log'|] == log';
    forall i | 0 <= i < |log'| ensures Decidedly(m, log', i) {
      assert log'[..i] == log[..i];
      if i < |log| { assert Decidedly(m, log, i); }
    }
  }

  lemma StepKeeps<S(!new), C(!new), E(!new), T(!new)>(
    m: Machine<S, C, E, T>, log: seq<Stored<C, E, T>>, log': seq<Stored<C, E, T>>, e: Engine<S, C, E, T>, e': Engine<S, C, E, T>, step: Step<C, T>)
    requires Sane(m) && LogOk(m, log) && EngineOk(m, log, e) && EngineStep(m, log, log', e, e', step)
    ensures LogOk(m, log') && EngineOk(m, log', e')
    ensures log' == log || exists x :: log' == log + [x]
  {
    hide LogOk;
    match step {
      case Append(at) =>
        AppendKeeps(m, log, log', e, at);
        assert Clean(m, log', e.work.st, at);
      case AppendUnanswered(at) =>
        AppendKeeps(m, log, log', e, at);
        GrownEngine(m, log, log'[|log|], e);
      case Load(k) => assert IsPrefix(m, log, FoldLog(m, log[..k]), SeqAt(log, k), k);
      case Decide(now) => DecideKeeps(m, log, e, e', now);
      case TooLarge => TooLargeKeeps(m, log, e, e');
      case Reload(k, when) =>
        var j: nat :| ReloadingAt(m, log, e.work, j);
        assert DecidedAt(m, log, e'.work, j, k);
      case AppendNothing => NothingKeeps(m, log, e);
      case Continue(c, now) =>
        var k: nat :| IsPrefix(m, log, e.cache.value.0, e.cache.value.1, k);
        assert DecidedAt(m, log, e'.work, k, k);
      case _ =>
    }
  }

  lemma DecideKeeps<S(!new), C(!new), E(!new), T(!new)>(m: Machine<S, C, E, T>, log: seq<Stored<C, E, T>>, e: Engine<S, C, E, T>, e': Engine<S, C, E, T>, now: T)
    requires Sane(m) && EngineOk(m, log, e) && EngineStep(m, log, log, e, e', Step<C, T>.Decide(now))
    ensures EngineOk(m, log, e')
  {
    var k: nat :| IsPrefix(m, log, e.work.st, e.work.last, k);
    if e'.work.Decided? { assert DecidedAt(m, log, e'.work, k, k); }
  }

  lemma TooLargeKeeps<S(!new), C(!new), E(!new), T(!new)>(m: Machine<S, C, E, T>, log: seq<Stored<C, E, T>>, e: Engine<S, C, E, T>, e': Engine<S, C, E, T>)
    requires EngineOk(m, log, e) && EngineStep(m, log, log, e, e', Step<C, T>.TooLarge)
    ensures EngineOk(m, log, e')
  {
    var j: nat, k: nat :| DecidedAt(m, log, e.work, j, k);
    assert ReloadingAt(m, log, e'.work, j);
  }

  /** An aborted decision without events: the execution had finished meanwhile. */
  lemma NothingKeeps<S(!new), C(!new), E(!new), T(!new)>(m: Machine<S, C, E, T>, log: seq<Stored<C, E, T>>, e: Engine<S, C, E, T>)
    requires Sane(m) && WorkOk(m, log, e.work) && e.work.Decided? && e.work.evs == []
    ensures Clean(m, log, e.work.st, e.work.expected)
  {
    var j: nat, k: nat :| DecidedAt(m, log, e.work, j, k);
    var s := FoldLog(m, log[..k]);
    assert m.fold(s, []) == s;
    assert IsPrefix(m, log, e.work.st, e.work.expected, k);
  }

  /** Every step of every engine keeps the invariant. */
  lemma NextInv<S(!new), C(!new), E(!new), T(!new)>(m: Machine<S, C, E, T>, w: World<S, C, E, T>, w': World<S, C, E, T>, i: nat, step: Step<C, T>)
    requires Sane(m) && Inv(m, w) && Next(m, w, w', i, step)
    ensures Inv(m, w') && w.log <= w'.log
  {
    hide LogOk, EngineOk, EngineStep, Sane;
    StepKeeps(m, w.log, w'.log, w.engines[i], w'.engines[i], step);
    forall j | j in w'.engines ensures EngineOk(m, w'.log, w'.engines[j]) {
      if j != i && w'.log != w.log {
        var x :| w'.log == w.log + [x];
        GrownEngine(m, w.log, x, w.engines[j]);
      }
    }
  }

  // ---- Runs of the protocol ----

  /** A run from an empty log: step i takes world i to world i + 1. */
  ghost predicate Behaviour<S(!new), C(!new), E(!new), T(!new)>(
    m: Machine<S, C, E, T>, worlds: seq<World<S, C, E, T>>, who: seq<nat>, steps: seq<Step<C, T>>)
  {
    && |worlds| == |steps| + 1 && |who| == |steps| && Init(worlds[0])
    && forall i :: 0 <= i < |steps| ==> Next(m, worlds[i], worlds[i + 1], who[i], steps[i])
  }

  lemma {:induction false} BehaviourInv<S(!new), C(!new), E(!new), T(!new)>(
    m: Machine<S, C, E, T>, worlds: seq<World<S, C, E, T>>, who: seq<nat>, steps: seq<Step<C, T>>, n: nat)
    requires Sane(m) && Behaviour(m, worlds, who, steps) && n < |worlds|
    ensures Inv(m, worlds[n])
    decreases n
  {
    hide Inv, Next, Init, Sane;
    if n == 0 {
      InitInv(m, worlds[0]);
    } else {
      BehaviourInv(m, worlds, who, steps, n - 1);
      NextInv(m, worlds[n - 1], worlds[n], who[n - 1], steps[n - 1]);
    }
  }

  /** In any interleaving every stored decision is one its command produces on the fold of the log before it, and every
      cached state an engine may decide on is the fold of a prefix of the log. */
  lemma StoredIsDecided<S(!new), C(!new), E(!new), T(!new)>(
    m: Machine<S, C, E, T>, worlds: seq<World<S, C, E, T>>, who: seq<nat>, steps: seq<Step<C, T>>, n: nat)
    requires Sane(m) && Behaviour(m, worlds, who, steps) && n < |worlds|
    ensures forall i :: 0 <= i < |worlds[n].log| ==>
              var x := worlds[n].log[i];
              x.evs != [] && Produces(m, FoldLog(m, worlds[n].log[..i]), x.cmd, x.now, x.late, x.evs)
    ensures forall e | e in worlds[n].engines && worlds[n].engines[e].cache.Some? && worlds[n].engines[e].work.Idle? ::
              exists k: nat :: k <= |worlds[n].log| && worlds[n].engines[e].cache.value.0 == FoldLog(m, worlds[n].log[..k])
  {
    hide Behaviour, Sane, Produces;
    BehaviourInv(m, worlds, who, steps, n);
    var w := worlds[n];
    forall i | 0 <= i < |w.log|
      ensures w.log[i].evs != [] && Produces(m, FoldLog(m, w.log[..i]), w.log[i].cmd, w.log[i].now, w.log[i].late, w.log[i].evs)
    {
      assert Decidedly(m, w.log, i);
    }
    forall e | e in w.engines && w.engines[e].cache.Some? && w.engines[e].work.Idle?
      ensures exists k: nat :: k <= |w.log| && w.engines[e].cache.value.0 == FoldLog(m, w.log[..k])
    {
      assert EngineOk(m, w.log, w.engines[e]);
      var k: nat :| IsPrefix(m, w.log, w.engines[e].cache.value.0, w.engines[e].cache.value.1, k);
    }
  }
}
