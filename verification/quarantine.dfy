/** Quarantine: decisions of a marked execution are skipped; a replay runs their effects, removes the mark and catches
    up on what was skipped meanwhile. Continuations purge what was acknowledged, skipped decisions included. Decisions are
    numbered by their position in the log. */
module Quarantines {
  import opened Values

  /** A replay: from the mark it read up to where its scan took the end of the log to be, then, once the mark is removed,
      again from where it had got to. upTo is how many decisions were stored when the mark was removed, and due which
      of them had been found to be skipped. */
  datatype Replay =
    | Replaying(mark: nat, next: nat)
    | Passed(mark: nat, next: nat)
    | CatchingUp(mark: nat, next: nat, upTo: nat, due: set<nat>)
    | Finished(mark: nat, due: set<nat>)

  /** length decisions were stored, those before first are purged. skipping holds those that a dispatcher acknowledges or
      will acknowledge without running their effects, having read a mark or having set one for them; ran those whose
      effects ran; lost those purged whose effects have not run. */
  datatype Partition = Partition(
    length: nat, first: nat, mark: Option<nat>, skipping: set<nat>, ran: set<nat>, acked: set<nat>, lost: set<nat>,
    replays: map<nat, Replay>)

  datatype Step =
    | Append
    | Process(decision: nat)
    | Fail(decision: nat)
    | Skip(decision: nat)
    | Acknowledge(decision: nat)
    | Purge(upTo: nat)
    | Begin(id: nat)
    | Apply(id: nat)
    | Reach(id: nat)
    | Unmark(id: nat)
    | GiveUp(id: nat)

  ghost predicate Next(p: Partition, p': Partition, step: Step) { Can(p, step) && p' == Do(p, step) }

  predicate Can(p: Partition, step: Step) {
    match step
    case Append => true
    case Process(d) => d < p.length
    case Fail(d) => d < p.length
    case Skip(d) => d < p.length && p.mark.Some?
    case Acknowledge(d) => d in p.ran || d in p.skipping
    case Purge(upTo) => // a continuation, itself not purged, removes what precedes it up to the acknowledged floor
      p.first <= upTo < p.length && forall d: nat :: p.first <= d < upTo ==> d in p.acked
    case Begin(id) => id !in p.replays && p.mark.Some?
    case Apply(id) => id in p.replays && Scanning(p.replays[id]) && At(p, id) < p.length
    case Reach(id) => // a scan ends where its last batch took the end of the log to be; more may be stored by now
      id in p.replays && Scanning(p.replays[id]) && (p.replays[id].CatchingUp? ==> At(p, id) >= p.replays[id].upTo)
    case Unmark(id) => id in p.replays && p.replays[id].Passed?
    case GiveUp(id) => id in p.replays
  }

  function Do(p: Partition, step: Step): Partition
    requires Can(p, step)
  {
    match step
    case Append => p.(length := p.length + 1)
    case Process(d) => p.(ran := p.ran + {d}, lost := p.lost - {d})
    case Fail(d) => // the decision that fails is acknowledged too; a mark already there is overwritten
      p.(mark := Some(d), skipping := p.skipping + {d})
    case Skip(d) => p.(skipping := p.skipping + {d})
    case Acknowledge(d) => p.(acked := p.acked + {d})
    case Purge(upTo) => p.(first := upTo, lost := p.lost + Unrun(p, upTo))
    case Begin(id) => p.(replays := p.replays[id := Replaying(p.mark.value, p.mark.value)])
    case Apply(id) =>
      p.(ran := p.ran + {At(p, id)}, lost := p.lost - {At(p, id)},
         replays := p.replays[id := p.replays[id].(next := At(p, id) + 1)])
    case Reach(id) => p.(replays := p.replays[id := Ended(p.replays[id])])
    case Unmark(id) =>
      p.(mark := None,
         replays := p.replays[id := CatchingUp(p.replays[id].mark, p.replays[id].next, p.length, p.skipping)])
    case GiveUp(id) => p.(replays := p.replays - {id})
  }

  predicate Scanning(r: Replay) { r.Replaying? || r.CatchingUp? }

  /** The decision a scan reads next, of those left in the log. */
  function At(p: Partition, id: nat): nat
    requires id in p.replays && Scanning(p.replays[id])
  {
    if p.replays[id].next < p.first then p.first else p.replays[id].next
  }

  /** What a purge up to upTo removes without its effects having run. */
  function Unrun(p: Partition, upTo: nat): set<nat> { set d: nat | p.first <= d < upTo && d !in p.ran }

  function Ended(r: Replay): Replay
    requires Scanning(r)
  {
    if r.Replaying? then Passed(r.mark, r.next) else Finished(r.mark, r.due)
  }

  /** Every decision from mark to before next had its effects run or is lost. */
  predicate Covered(p: Partition, mark: nat, next: nat) { forall d: nat :: mark <= d < next ==> d in p.ran || d in p.lost }

  predicate ReplayOk(p: Partition, r: Replay) {
    match r
    case Replaying(mark, next) => next <= p.length && Covered(p, mark, next)
    case Passed(mark, next) => next <= p.length && Covered(p, mark, next)
    case CatchingUp(mark, next, upTo, due) =>
      next <= p.length && Covered(p, mark, next) && (forall d | d in due :: d < upTo)
    case Finished(mark, due) => forall d | d in due && d >= mark :: d in p.ran || d in p.lost
  }

  predicate Inv(p: Partition) {
    && p.first <= p.length && (p.mark.Some? ==> p.mark.value < p.length)
    && (forall d | d in p.skipping :: d < p.length)
    && p.lost !! p.ran && (forall d | d in p.lost :: d < p.first) && Covered(p, 0, p.first)
    && (forall id | id in p.replays :: ReplayOk(p, p.replays[id]))
  }

  ghost predicate Init(p: Partition) { p == Partition(0, 0, None, {}, {}, {}, {}, map[]) }

  /** What ran or was lost stays one or the other. */
  ghost predicate Resolved(p: Partition, p': Partition) {
    forall d | d in p.ran || d in p.lost :: d in p'.ran || d in p'.lost
  }

  lemma GrowsOk(p: Partition, p': Partition, r: Replay)
    requires ReplayOk(p, r) && p.length <= p'.length && Resolved(p, p')
    ensures ReplayOk(p', r)
  {
  }

  /** Every step keeps what replays have covered: all of it ran, or was purged before it could. */
  lemma NextInv(p: Partition, p': Partition, step: Step)
    requires Inv(p) && Next(p, p', step)
    ensures Inv(p') && p.ran <= p'.ran
  {
    assert Resolved(p, p');
    forall id | id in p'.replays ensures ReplayOk(p', p'.replays[id]) {
      if id in p.replays { GrowsOk(p, p', p.replays[id]); }
    }
  }

  ghost predicate Behaviour(parts: seq<Partition>, steps: seq<Step>) {
    && |parts| == |steps| + 1 && Init(parts[0])
    && forall i :: 0 <= i < |steps| ==> Next(parts[i], parts[i + 1], steps[i])
  }

  lemma {:induction false} BehaviourInv(parts: seq<Partition>, steps: seq<Step>, n: nat)
    requires Behaviour(parts, steps) && n < |parts|
    ensures Inv(parts[n])
    decreases n
  {
    hide Inv, Next;
    if n == 0 {
      InitOk(parts[0]);
    } else {
      BehaviourInv(parts, steps, n - 1);
      NextInv(parts[n - 1], parts[n], steps[n - 1]);
    }
  }

  lemma InitOk(p: Partition)
    requires Init(p)
    ensures Inv(p)
  {
  }

  lemma {:induction false} KeptSkipping(parts: seq<Partition>, steps: seq<Step>, i: nat, n: nat)
    requires Behaviour(parts, steps) && i <= n < |parts|
    requires forall j :: i <= j < n ==> !steps[j].Fail? && parts[j].mark.None?
    ensures parts[n].skipping == parts[i].skipping && (n > i ==> parts[n].mark.None?)
    decreases n
  {
    if i < n {
      KeptSkipping(parts, steps, i, n - 1);
      assert Next(parts[n - 1], parts[n], steps[n - 1]);
    }
  }

  lemma {:induction false} DueStays(parts: seq<Partition>, steps: seq<Step>, i: nat, n: nat, id: nat)
    requires Behaviour(parts, steps) && i <= n < |parts| && id in parts[i].replays
    requires parts[i].replays[id].CatchingUp? || parts[i].replays[id].Finished?
    requires forall j :: i <= j < n ==> !(steps[j].GiveUp? && steps[j].id == id)
    ensures id in parts[n].replays && (parts[n].replays[id].CatchingUp? || parts[n].replays[id].Finished?)
    ensures parts[n].replays[id].mark == parts[i].replays[id].mark && parts[n].replays[id].due == parts[i].replays[id].due
    decreases n
  {
    if i < n {
      DueStays(parts, steps, i, n - 1, id);
      assert Next(parts[n - 1], parts[n], steps[n - 1]);
    }
  }

  /** When a replay that removed the mark in step i has finished, a decision from its mark on that any dispatcher had
      acknowledged or found to be skipped by then, the one that failed included, has had its effects run if and only if no
      purge took it away before; in whatever way appends, skips, failures, purges, the ends of scans, the removal of the
      mark and the catching up interleave. */
  lemma SkippedRanIff(parts: seq<Partition>, steps: seq<Step>, i: nat, n: nat, id: nat, d: nat)
    requires Behaviour(parts, steps) && i < n < |parts| && steps[i] == Unmark(id)
    requires forall j :: i < j < n ==> !(steps[j].GiveUp? && steps[j].id == id)
    requires id in parts[n].replays && parts[n].replays[id].Finished?
    requires d in parts[i].skipping && d >= parts[n].replays[id].mark
    ensures d in parts[n].ran <==> d !in parts[n].lost
    ensures d in parts[n].ran <==> !exists j :: TakenAt(parts, steps, j, n, d)
  {
    hide Inv, Covered, TakenAt;
    LostIff(parts, steps, n, d);
    assert Next(parts[i], parts[i + 1], steps[i]);
    DueStays(parts, steps, i + 1, n, id);
    BehaviourInv(parts, steps, n);
    FinishedRan(parts[n], id, d);
  }

  lemma FinishedRan(p: Partition, id: nat, d: nat)
    requires Inv(p) && id in p.replays && p.replays[id].Finished? && d in p.replays[id].due && d >= p.replays[id].mark
    ensures d in p.ran <==> d !in p.lost
  {
  }

  /** Without a new quarantine that is all that is ever skipped: nothing is found to be skipped once the mark is gone. */
  lemma NothingSkippedAfter(parts: seq<Partition>, steps: seq<Step>, i: nat, n: nat, id: nat)
    requires Behaviour(parts, steps) && i < n < |parts| && steps[i] == Unmark(id)
    requires forall j :: i < j < n ==> !steps[j].Fail?
    ensures parts[n].skipping == parts[i].skipping
  {
    assert Next(parts[i], parts[i + 1], steps[i]);
    NoMark(parts, steps, i + 1, n);
    KeptSkipping(parts, steps, i + 1, n);
  }

  lemma {:induction false} NoMark(parts: seq<Partition>, steps: seq<Step>, i: nat, n: nat)
    requires Behaviour(parts, steps) && i <= n < |parts| && parts[i].mark.None? && forall j :: i <= j < n ==> !steps[j].Fail?
    ensures forall j :: i <= j <= n ==> parts[j].mark.None?
    decreases n
  {
    if i < n {
      NoMark(parts, steps, i, n - 1);
      assert Next(parts[n - 1], parts[n], steps[n - 1]);
    }
  }

  // ---- When decisions are lost ----

  /** Step j purges decision d before its effects ran. */
  predicate TakesAway(p: Partition, step: Step, d: nat) { step.Purge? && d in Unrun(p, step.upTo) }

  /** Step i took decision d away, and no dispatcher that still held it ran its effects since. */
  predicate TakenAt(parts: seq<Partition>, steps: seq<Step>, i: int, n: nat, d: nat)
    requires |parts| == |steps| + 1
  {
    0 <= i < n <= |steps| && TakesAway(parts[i], steps[i], d) && forall j :: i < j < n ==> steps[j] != Process(d)
  }

  /** A decision is lost if and only if a purge took it away before its effects ran, and they have not run since. */
  lemma {:induction false} LostIff(parts: seq<Partition>, steps: seq<Step>, n: nat, d: nat)
    requires Behaviour(parts, steps) && n < |parts|
    ensures d in parts[n].lost <==> exists i :: TakenAt(parts, steps, i, n, d)
    decreases n
  {
    if n > 0 {
      LostIff(parts, steps, n - 1, d);
      BehaviourInv(parts, steps, n - 1);
      assert Next(parts[n - 1], parts[n], steps[n - 1]);
      OneStepLost(parts[n - 1], parts[n], steps[n - 1], d);
      hide Inv, Next, Init, TakesAway;
      if d in parts[n].lost {
        if TakesAway(parts[n - 1], steps[n - 1], d) {
          assert TakenAt(parts, steps, n - 1, n, d);
        } else {
          var i :| TakenAt(parts, steps, i, n - 1, d);
          assert TakenAt(parts, steps, i, n, d);
        }
      }
      if i :| TakenAt(parts, steps, i, n, d) {
        if i < n - 1 { assert TakenAt(parts, steps, i, n - 1, d); }
      }
    }
  }

  lemma OneStepLost(p: Partition, p': Partition, step: Step, d: nat)
    requires Inv(p) && Next(p, p', step)
    ensures d in p'.lost <==> TakesAway(p, step, d) || (d in p.lost && step != Process(d))
  {
    hide ReplayOk, Covered;
  }

  // ---- When none are ----

  /** What an engine and a dispatcher can see to: no purge passes the mark while it is set, nor where a replay has got to
      until it ends; and a mark is set only for a decision still in the log. */
  predicate Heeds(p: Partition, step: Step) {
    match step
    case Purge(upTo) =>
      && (p.mark.Some? ==> upTo <= p.mark.value)
      && (forall id | id in p.replays && !p.replays[id].Finished? :: upTo <= p.replays[id].next)
    case Fail(d) => p.first <= d
    case _ => true
  }

  /** Nothing is lost from the mark on, nor from the mark of a replay on until it ends, nor what was due by then. */
  predicate NoneLost(p: Partition) {
    && (p.mark.Some? ==> forall d | d in p.lost :: d < p.mark.value)
    && (forall id | id in p.replays :: Spared(p, p.replays[id]))
  }

  predicate Spared(p: Partition, r: Replay) {
    forall d | d in p.lost && (r.Finished? ==> d in r.due) :: d < r.mark
  }

  lemma HeededStep(p: Partition, p': Partition, step: Step)
    requires Inv(p) && Next(p, p', step) && Heeds(p, step) && NoneLost(p)
    ensures NoneLost(p')
  {
    forall id | id in p'.replays ensures Spared(p', p'.replays[id]) {
      if id in p.replays { assert Spared(p, p.replays[id]) && ReplayOk(p, p.replays[id]); }
    }
  }

  lemma {:induction false} HeededRun(parts: seq<Partition>, steps: seq<Step>, n: nat)
    requires Behaviour(parts, steps) && n < |parts|
    requires forall i :: 0 <= i < n ==> Heeds(parts[i], steps[i])
    ensures NoneLost(parts[n])
    decreases n
  {
    hide Inv, Next, Heeds;
    if n > 0 {
      HeededRun(parts, steps, n - 1);
      BehaviourInv(parts, steps, n - 1);
      HeededStep(parts[n - 1], parts[n], steps[n - 1]);
    }
  }

  /** If all purges heed the marks and the replays, no decision is lost to the replay it was due in. */
  lemma HeededRan(parts: seq<Partition>, steps: seq<Step>, i: nat, n: nat, id: nat, d: nat)
    requires Behaviour(parts, steps) && i < n < |parts| && steps[i] == Unmark(id)
    requires forall j :: i < j < n ==> !(steps[j].GiveUp? && steps[j].id == id)
    requires id in parts[n].replays && parts[n].replays[id].Finished?
    requires d in parts[i].skipping && d >= parts[n].replays[id].mark
    requires forall j :: 0 <= j < n ==> Heeds(parts[j], steps[j])
    ensures d in parts[n].ran
  {
    hide Inv, Covered, Heeds;
    SkippedRanIff(parts, steps, i, n, id, d);
    HeededRun(parts, steps, n);
    assert Next(parts[i], parts[i + 1], steps[i]);
    DueStays(parts, steps, i + 1, n, id);
    assert Spared(parts[n], parts[n].replays[id]);
  }

  // ---- Runs that lose a decision ----

  lemma Grown(parts: seq<Partition>, steps: seq<Step>, step: Step) returns (longer: seq<Partition>, more: seq<Step>)
    requires Behaviour(parts, steps) && Can(parts[|steps|], step)
    ensures Behaviour(longer, more) && |parts| == |steps| + 1
    ensures longer == parts + [Do(parts[|steps|], step)] && more == steps + [step]
  {
    longer, more := parts + [Do(parts[|steps|], step)], steps + [step];
    hide Do, Can;
    forall i | 0 <= i < |more| ensures Next(longer[i], longer[i + 1], more[i]) {
      if i < |steps| { assert Next(parts[i], parts[i + 1], steps[i]); }
    }
  }

  lemma Began() returns (parts: seq<Partition>, steps: seq<Step>)
    ensures Behaviour(parts, steps) && |steps| == 3 && |parts| == 4 && (forall i :: 0 <= i < 3 ==> !steps[i].Purge?)
    ensures parts[3] == Partition(1, 0, Some(0), {0}, {}, {0}, {}, map[])
  {
    parts, steps := [Partition(0, 0, None, {}, {}, {}, {}, map[])], [];
    hide Behaviour;
    parts, steps := Grown(parts, steps, Step.Append);
    parts, steps := Grown(parts, steps, Fail(0));
    parts, steps := Grown(parts, steps, Acknowledge(0));
  }

  /** Skips the next decision, and stores a continuation. */
  lemma SkipsNext(parts: seq<Partition>, steps: seq<Step>) returns (longer: seq<Partition>, more: seq<Step>)
    requires Behaviour(parts, steps) && parts[|steps|].mark.Some?
    ensures Behaviour(longer, more) && |more| == |steps| + 4 && |longer| == |parts| + 4 && steps <= more && parts <= longer
    ensures forall i :: |steps| <= i < |more| ==> !more[i].Purge?
    ensures var p, n := parts[|steps|], parts[|steps|].length;
            longer[|more|] == p.(length := n + 2, skipping := p.skipping + {n}, acked := p.acked + {n})
  {
    var n := parts[|steps|].length;
    hide Behaviour;
    longer, more := Grown(parts, steps, Step.Append);
    longer, more := Grown(longer, more, Skip(n));
    longer, more := Grown(longer, more, Acknowledge(n));
    longer, more := Grown(longer, more, Step.Append);
  }

  /** The first decision fails, the second is skipped, the third is a continuation that purges both. The replay ends
      without an error, and their effects never ran. */
  lemma PurgeLoses() returns (parts: seq<Partition>, steps: seq<Step>)
    ensures Behaviour(parts, steps) && |steps| == 13 && steps[7] == Purge(2) && steps[11] == Unmark(0)
    ensures parts[11].skipping == {0, 1} && parts[13].ran == {2}
    ensures 0 in parts[13].replays && parts[13].replays[0] == Finished(0, {0, 1})
  {
    hide Behaviour;
    parts, steps := Began();
    parts, steps := SkipsNext(parts, steps);
    parts, steps := Grown(parts, steps, Purge(2));
    assert parts[8].lost == {0, 1};
    parts, steps := Grown(parts, steps, Begin(0));
    parts, steps := Grown(parts, steps, Apply(0));
    parts, steps := Grown(parts, steps, Reach(0));
    parts, steps := Grown(parts, steps, Unmark(0));
    parts, steps := Grown(parts, steps, Reach(0));
  }

  /** It is not enough that no purge passes a mark: between the removal of the mark and the catching up, a purge takes a
      decision that was skipped after the first scan had ended. */
  lemma MarkIsNotEnough() returns (parts: seq<Partition>, steps: seq<Step>)
    ensures Behaviour(parts, steps) && |steps| == 14 && steps[10] == Unmark(0) && steps[11] == Purge(2)
    ensures forall i :: 0 <= i < 14 && steps[i].Purge? ==> parts[i].mark.None?
    ensures parts[10].skipping == {0, 1} && parts[14].ran == {0, 2}
    ensures 0 in parts[14].replays && parts[14].replays[0] == Finished(0, {0, 1})
  {
    hide Behaviour;
    parts, steps := Began();
    parts, steps := Grown(parts, steps, Begin(0));
    parts, steps := Grown(parts, steps, Apply(0));
    parts, steps := Grown(parts, steps, Reach(0));
    parts, steps := SkipsNext(parts, steps);
    parts, steps := Grown(parts, steps, Unmark(0));
    parts, steps := Grown(parts, steps, Purge(2));
    parts, steps := Grown(parts, steps, Apply(0));
    parts, steps := Grown(parts, steps, Reach(0));
  }
}
