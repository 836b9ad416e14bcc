/** Delivery: the decisions of an execution are delivered in order to any of several dispatchers until one of them
    acknowledges, while engines store further decisions, snapshots and continuations. */
module Deliveries {
  import opened Values
  import opened Flows
  import opened Fold
  import opened Guards
  import opened Histories
  import opened Loading
  import opened Dispatching
  import opened WrittenLogs

  /** Something that happens. */
  datatype Act =
    | Write(at: nat, evs: seq<Event>)
    | Save(upTo: nat)
    | Continue(upTo: nat, at: nat, time: int, cmdId: string, floor: nat, saved: bool, steps: nat)
    | Purge(floor: nat)
    | Join(who: nat)
    | Deliver(who: nat, fails: nat)
    | Look(who: nat, n: nat)
    | Acknowledge
    | Skip(who: nat)

  /** A decision a dispatcher applied: its events, the states its effects ran with, and whether all of them ran. */
  datatype Applied = Applied(evs: seq<Rec>, ran: seq<State>, ok: bool)

  /** The decision applied is the one at position k of the history, and its effects ran with the states right after its
      events. */
  ghost predicate AppliedAt(f: Flow, exec: string, full: seq<Rec>, a: Applied, k: nat) {
    && k + |a.evs| <= |full| && a.evs == full[k..k + |a.evs|] && |a.ran| <= |a.evs| && (a.ok <==> |a.ran| == |a.evs|)
    && forall i :: 0 <= i < |a.ran| ==> StateAt(f, exec, full, k + i + 1) == Some(a.ran[i])
  }

  /** Event i was applied with its whole decision. */
  ghost predicate Covered(applied: seq<Applied>, starts: seq<nat>, i: nat)
    requires |starts| == |applied|
  {
    exists n :: 0 <= n < |applied| && applied[n].ok && starts[n] <= i < starts[n] + |applied[n].evs|
  }

  /** The attempt that event i schedules is not running at some later point of the history. */
  ghost predicate Over(f: Flow, exec: string, full: seq<Rec>, i: nat) {
    && i < |full| && full[i].ev.body.OfNode? && full[i].ev.body.work.Scheduled?
    && exists c: nat :: i < c <= |full| && StateAt(f, exec, full, c).Some? && !AttemptLive(StateAt(f, exec, full, c).value, full[i].ev.body.work)
  }

  // ---- A history that grows keeps what was known ----

  /** full' is full with further decisions. */
  predicate Grown(full: seq<Rec>, full': seq<Rec>) {
    full <= full' && (0 < |full| < |full'| ==> full[|full| - 1].at < full'[|full|].at)
  }

  lemma StateStays(f: Flow, exec: string, full: seq<Rec>, full': seq<Rec>, k: nat)
    requires full <= full' && k <= |full|
    ensures StateAt(f, exec, full', k) == StateAt(f, exec, full, k)
  {
    assert full'[..k] == full[..k];
  }

  /** What a dispatcher keeps stays the state after some decision, whatever else is stored. */
  lemma LoadedStays(f: Flow, exec: string, full: seq<Rec>, full': seq<Rec>, x: Loaded, k: nat)
    requires Grown(full, full') && IsLoaded(f, exec, full, x, k) && Whole(full, k)
    ensures IsLoaded(f, exec, full', x, k) && Whole(full', k)
  {
    hide StateAt;
    StateStays(f, exec, full, full', k);
  }

  lemma AppliedStays(f: Flow, exec: string, full: seq<Rec>, full': seq<Rec>, a: Applied, k: nat)
    requires Grown(full, full') && AppliedAt(f, exec, full, a, k)
    ensures AppliedAt(f, exec, full', a, k)
  {
    hide StateAt;
    forall i | 0 <= i < |a.ran| ensures StateAt(f, exec, full', k + i + 1) == Some(a.ran[i]) {
      StateStays(f, exec, full, full', k + i + 1);
    }
  }

  lemma OverStays(f: Flow, exec: string, full: seq<Rec>, full': seq<Rec>, i: nat)
    requires Grown(full, full') && Over(f, exec, full, i)
    ensures Over(f, exec, full', i)
  {
    hide StateAt;
    var c: nat :| i < c <= |full| && StateAt(f, exec, full, c).Some? && !AttemptLive(StateAt(f, exec, full, c).value, full[i].ev.body.work);
    StateStays(f, exec, full, full', c);
    assert full'[i] == full[i];
  }

  /** What is acknowledged is whole decisions from the first on, all of them applied or skipped, and nothing else was purged;
      decisions are applied in order. */
  ghost predicate AckedOf(full: seq<Rec>, cut: nat, acked: nat, floor: nat, handled: bool, applied: seq<Applied>, starts: seq<nat>, skipped: set<nat>) {
    && cut <= acked <= |full| && Whole(full, acked) && floor == SeqOf(full, acked)
    && |starts| == |applied| && (forall i :: 0 <= i < acked ==> Covered(applied, starts, i) || full[i].at in skipped)
    && (forall a | a in skipped :: a <= floor)
    && (forall m, n :: 0 <= m <= n < |starts| ==> starts[m] <= starts[n] <= acked)
    && (handled ==>
          && acked < |full|
          && forall i :: acked <= i < |full| && full[i].at == full[acked].at ==> Covered(applied, starts, i))
  }

  /** Every application so far was on the states of the history. */
  ghost predicate RecordedOf(f: Flow, exec: string, full: seq<Rec>, applied: seq<Applied>, starts: seq<nat>, over: set<nat>) {
    && |starts| == |applied|
    && (forall n :: 0 <= n < |applied| ==> AppliedAt(f, exec, full, applied[n], starts[n]))
    && (forall i | i in over :: Over(f, exec, full, i))
  }

  /** What dispatcher d keeps is the state after some decision of the history. */
  ghost predicate Keeps(f: Flow, exec: string, full: seq<Rec>, d: Dispatcher)
    reads d
  {
    && (d.cache.Some? ==> IsLoaded(f, exec, full, d.cache.value, d.cacheAt) && Whole(full, d.cacheAt))
    && (d.head.Some? ==> IsLoaded(f, exec, full, d.head.value, d.headAt) && Whole(full, d.headAt))
  }

  lemma KeepsOn(f: Flow, exec: string, full: seq<Rec>, full': seq<Rec>, d: Dispatcher)
    requires Grown(full, full') && Keeps(f, exec, full, d)
    ensures Keeps(f, exec, full', d)
  {
    hide IsLoaded, Whole, Grown;
    if d.cache.Some? { LoadedStays(f, exec, full, full', d.cache.value, d.cacheAt); }
    if d.head.Some? { LoadedStays(f, exec, full, full', d.head.value, d.headAt); }
  }

  lemma AckedOn(full: seq<Rec>, full': seq<Rec>, cut: nat, acked: nat, floor: nat, handled: bool, applied: seq<Applied>, starts: seq<nat>, skipped: set<nat>)
    requires AckedOf(full, cut, acked, floor, handled, applied, starts, skipped) && Grown(full, full') && Sorted(full')
    ensures AckedOf(full', cut, acked, floor, handled, applied, starts, skipped)
  {
    hide Covered;
    if handled {
      forall i | acked <= i < |full'| && full'[i].at == full'[acked].at ensures Covered(applied, starts, i) {
        assert full'[acked].at <= full'[|full| - 1].at;
        assert full'[acked] == full[acked];
        assert full'[i] == full[i];
      }
    }
  }

  lemma RecordedOn(f: Flow, exec: string, full: seq<Rec>, full': seq<Rec>, applied: seq<Applied>, starts: seq<nat>, over: set<nat>)
    requires RecordedOf(f, exec, full, applied, starts, over) && Grown(full, full')
    ensures RecordedOf(f, exec, full', applied, starts, over)
  {
    hide Over, AppliedAt, Grown;
    forall n | 0 <= n < |applied| ensures AppliedAt(f, exec, full', applied[n], starts[n]) {
      AppliedStays(f, exec, full, full', applied[n], starts[n]);
    }
    forall i | i in over ensures Over(f, exec, full', i) { OverStays(f, exec, full, full', i); }
  }

  /** Whether a decision folds onto what is stored: what an engine decided always does. */
  method Acceptable(store: Store, at: nat, evs: seq<Event>) returns (ok: bool)
    requires store.Valid()
    ensures ok ==> evs != [] && HistoryOk(store.f, store.exec, store.full + Recs(at, evs)) && (|store.full| > 0 ==> at > store.full[|store.full| - 1].at)
    ensures ok ==> forall i :: 0 <= i < |evs| ==> !(evs[i].body.OfLife? && evs[i].body.life.Continued?)
  {
    hide HistoryOk, LiveOk, SnapOk, ArchiveOk, FoldRecs, Apply, StateAt;
    var last := store.LastSeq();
    if evs == [] || at <= last {
      return false;
    }
    var x := store.Load(0);
    ghost var full := store.full;
    AllLoaded(store.f, store.exec, full, x.value);
    var s := x.value.st;
    for i := 0 to |evs|
      invariant FoldRecs(store.f, New(store.exec), full + Recs(at, evs)[..i]) == Some(s) && s.book.events == |full| + i
      invariant forall j :: 0 <= j < i ==> Placed(evs[j], |full| + j)
    {
      var next := Apply(store.f, s, evs[i]);
      if next.None? || evs[i].index != s.book.events + 1 || Creates(evs[i]) != (s.book.events == 0) || IsContinued(Rec(at, evs[i])) {
        return false;
      }
      OneRec(store.f, New(store.exec), full + Recs(at, evs)[..i], s, Recs(at, evs)[i]);
      assert full + Recs(at, evs)[..i + 1] == (full + Recs(at, evs)[..i]) + [Recs(at, evs)[i]];
      Counts(store.f, s, evs[i]);
      s := next.value;
    }
    assert Recs(at, evs)[..|evs|] == Recs(at, evs);
    StoredIsHistory(store.f, store.exec, full, at, evs);
    return true;
  }

  predicate Creates(ev: Event) { ev.body.OfLife? && (ev.body.life.Started? || ev.body.life.Forked?) }

  predicate Placed(ev: Event, i: nat) {
    ev.index == i + 1 && (Creates(ev) <==> i == 0) && !(ev.body.OfLife? && ev.body.life.Continued?)
  }

  lemma AllLoaded(f: Flow, exec: string, full: seq<Rec>, x: Loaded)
    requires HistoryOk(f, exec, full) && IsLoaded(f, exec, full, x, Reach(full, 0))
    ensures FoldRecs(f, New(exec), full + []) == Some(x.st) && x.st.book.events == |full| && x.last == SeqOf(full, |full|)
  {
    hide HistoryOk;
    assert full[..|full|] == full && full + [] == full;
    StateCounts(f, exec, full, |full|);
  }

  lemma OneRec(f: Flow, s0: State, recs: seq<Rec>, s: State, r: Rec)
    requires FoldRecs(f, s0, recs) == Some(s)
    ensures FoldRecs(f, s0, recs + [r]) == Apply(f, s, r.ev)
  {
    assert (recs + [r])[..|recs|] == recs;
    hide Apply;
  }

  lemma StoredIsHistory(f: Flow, exec: string, full: seq<Rec>, at: nat, evs: seq<Event>)
    requires HistoryOk(f, exec, full) && evs != [] && at > SeqOf(full, |full|)
    requires FoldRecs(f, New(exec), full + Recs(at, evs)).Some?
    requires forall j :: 0 <= j < |evs| ==> Placed(evs[j], |full| + j)
    ensures HistoryOk(f, exec, full + Recs(at, evs))
  {
    hide FoldRecs;
    var g := full + Recs(at, evs);
    forall i | 0 <= i < |g| ensures g[i].ev.index == i + 1 && (IsFirst(g[i]) <==> i == 0) && g[i].at > 0 {
      if i >= |full| { assert Placed(evs[i - |full|], i); }
    }
    forall i, j | 0 <= i < j < |g| ensures g[i].at <= g[j].at {
      if i < |full| <= j { assert full[i].at <= full[|full| - 1].at; }
    }
  }

  /** What the history, what is acknowledged and what was applied are at some point. */
  datatype Stage = Stage(full: seq<Rec>, cut: nat, acked: nat, handled: bool, applied: seq<Applied>, starts: seq<nat>, skipped: set<nat>,
                         who: set<nat>)

  /** Where the next decision to deliver ends. */
  ghost predicate EndsAt(full: seq<Rec>, first: nat, end: nat) {
    && first < end <= |full| && forall i :: first <= i < |full| ==> (i < end <==> full[i].at == full[first].at)
  }

  /** What an act does. Writes add a decision; a continuation adds its event at most; only these change the history, and only
      a continuation or a purge removes from the live log. A delivery to a dispatcher that exists applies the next
      decision, if there is one; an acknowledgement of a decision that was applied moves on by that decision, and so does
      the dispatcher that finds the execution quarantined, or quarantines it, without applying. */
  ghost predicate Does(act: Act, s: Stage, t: Stage) {
    match act
    case Write(at, evs) => t == s || t == s.(full := s.full + Recs(at, evs))
    case Save(_) => t == s
    case Continue(_, at, _, _, _, _, _) =>
      && t == s.(full := t.full, cut := t.cut) && s.cut <= t.cut <= s.acked
      && (t.full == s.full || (|t.full| == |s.full| + 1 && s.full <= t.full && IsContinued(t.full[|s.full|]) && t.full[|s.full|].at == at))
    case Purge(_) => t == s.(cut := t.cut) && s.cut <= t.cut <= s.acked
    case Join(who) => t == s.(who := s.who + {who})
    case Look(_, _) => t == s
    case Deliver(who, fails) =>
      if who !in s.who || s.acked == |s.full| then t == s
      else exists a: Applied ::
             && EndsAt(s.full, s.acked, s.acked + |a.evs|) && a.evs == s.full[s.acked..s.acked + |a.evs|]
             && (a.ok <==> fails >= |a.evs|)
             && t == s.(applied := s.applied + [a], starts := s.starts + [s.acked], handled := s.handled || a.ok)
    case Acknowledge =>
      if s.handled then EndsAt(s.full, s.acked, t.acked) && t == s.(acked := t.acked, handled := false) else t == s
    case Skip(who) =>
      if who !in s.who || s.acked == |s.full| then t == s
      else
        && EndsAt(s.full, s.acked, t.acked)
        && t == s.(acked := t.acked, handled := false, skipped := s.skipped + {s.full[s.acked].at})
  }

  class Delivery {
    const store: Store
    var dispatchers: map<nat, Dispatcher>

    /** The sequence of the last decision acknowledged, and whether the next one was applied by some dispatcher. */
    var floor: nat
    var handled: bool

    /** Every application of a decision so far, and the attempts not started because they were found to be over. */
    var applied: seq<Applied>

    ghost var acked: nat
    ghost var starts: seq<nat>

    /** The sequences of the decisions that were acknowledged without being applied. */
    ghost var skipped: set<nat>
    ghost var over: set<nat>

    ghost predicate Valid()
      reads this, store, dispatchers.Values
    {
      && store.Valid() && Acked() && Recorded()
      && (forall i | i in dispatchers :: dispatchers[i].store == store && dispatchers[i].Valid())
      && (forall i, j | i in dispatchers && j in dispatchers && i != j :: dispatchers[i] != dispatchers[j])
    }

    ghost function At(): Stage
      reads this, store
    {
      Stage(store.full, store.cut, acked, handled, applied, starts, skipped, dispatchers.Keys)
    }

    ghost predicate Acked()
      reads this, store
    {
      AckedOf(store.full, store.cut, acked, floor, handled, applied, starts, skipped)
    }

    ghost predicate Recorded()
      reads this, store
    {
      RecordedOf(store.f, store.exec, store.full, applied, starts, over)
    }

    constructor (f: Flow, exec: string)
      ensures Valid() && fresh(store) && dispatchers == map[] && store.f == f && store.exec == exec
      ensures At() == Stage([], 0, 0, false, [], [], {}, {})
    {
      var s := new Store(f, exec);
      store := s;
      dispatchers, floor, handled, applied := map[], 0, false, [];
      acked, starts, skipped, over := 0, [], {}, {};
    }

    /** The next decision to deliver: the first stored one that is not acknowledged. It is in the live log. */
    method Pending() returns (evs: seq<Rec>)
      requires store.Valid() && Acked()
      ensures acked + |evs| <= |store.full| && evs == store.full[acked..acked + |evs|] && Whole(store.full, acked + |evs|)
      ensures evs == [] <==> acked == |store.full|
      ensures forall i :: acked <= i < |store.full| ==> (i < acked + |evs| <==> store.full[i].at == store.full[acked].at)
    {
      hide FoldRecs, SnapOk, ArchiveOk, StateAt, LastBaseOf, Sorted, Whole, Covered;
      evs := FirstAfter(store.live, floor, store.full, store.cut, acked);
    }

    /** What is stored beyond full0, and what of it was purged, leaves everything in order. */
    lemma Refreshed(full0: seq<Rec>)
      requires store.Valid() && Grown(full0, store.full)
      requires AckedOf(full0, store.cut, acked, floor, handled, applied, starts, skipped)
      requires RecordedOf(store.f, store.exec, full0, applied, starts, over)
      requires forall i | i in dispatchers :: dispatchers[i].store == store && Keeps(store.f, store.exec, full0, dispatchers[i])
      requires forall i, j | i in dispatchers && j in dispatchers && i != j :: dispatchers[i] != dispatchers[j]
      ensures Valid()
    {
      hide FoldRecs, LiveOk, SnapOk, ArchiveOk, StateAt, Grown, AckedOf, RecordedOf, IsLoaded, Whole;
      AckedOn(full0, store.full, store.cut, acked, floor, handled, applied, starts, skipped);
      RecordedOn(store.f, store.exec, full0, store.full, applied, starts, over);
      forall i | i in dispatchers ensures dispatchers[i].Valid() {
        KeepsOn(store.f, store.exec, full0, store.full, dispatchers[i]);
      }
    }

    /** Whether everything stored up to the sequence was acknowledged. */
    method Finished(upTo: nat) returns (ok: bool)
      requires store.Valid() && Acked()
      ensures ok ==> acked == |store.full| || upTo < store.full[acked].at
    {
      hide AckedOf;
      var evs := Pending();
      return evs == [] || upTo < evs[0].at;
    }

    // ---- What engines do ----

    /** An engine stores a decision. */
    method Write(at: nat, evs: seq<Event>)
      requires Valid()
      modifies store
      ensures Valid() && Does(Act.Write(at, evs), old(At()), At())
    {
      hide FoldRecs, HistoryOk, LiveOk, SnapOk, ArchiveOk, StateAt, AckedOf, RecordedOf, IsLoaded, Whole;
      var ok := Acceptable(store, at, evs);
      if ok {
        ghost var full0 := store.full;
        store.Append(at, evs);
        Refreshed(full0);
      }
    }

    /** An engine saves a snapshot of the state at some sequence. */
    method Save(upTo: nat)
      requires Valid()
      modifies store
      ensures Valid() && Does(Act.Save(upTo), old(At()), At())
    {
      hide FoldRecs, LiveOk, SnapOk, ArchiveOk, StateAt, AckedOf, RecordedOf, Whole;
      ghost var full0 := store.full;
      var x := store.Load(upTo);
      if x.value.st.book.events > 0 {
        LoadedWhole(store.f, store.exec, store.full, upTo, x.value);
        store.SaveSnapshot(x.value, Reach(store.full, upTo));
        Refreshed(full0);
      }
    }

    /** An engine continues the execution as new on the state at some sequence, no other continuation having happened
        since; it purges only what was acknowledged. */
    method Continue(upTo: nat, at: nat, time: int, cmdId: string, fl: nat, saved: bool, steps: nat)
      requires Valid()
      modifies store
      ensures Valid() && Does(Act.Continue(upTo, at, time, cmdId, fl, saved, steps), old(At()), At())
    {
      hide FoldRecs, HistoryOk, LiveOk, SnapOk, ArchiveOk, StateAt, AckedOf, RecordedOf, Whole, IsLoaded, LastBaseOf, Does, Covered;
      ghost var full0, cut0 := store.full, store.cut;
      CutAcked(full0, cut0, acked, floor, handled, applied, starts, skipped);
      var x := Continuable(upTo, at, fl);
      if x.None? {
        NotContinued(At(), upTo, at, time, cmdId, fl, saved, steps);
        return;
      }
      store.ContinueAsNew(x.value, Reach(store.full, upTo), at, time, cmdId, fl, saved, steps);
      PurgedAcked(store, full0, cut0, fl, acked, floor, handled, applied, starts, skipped);
      CutAcked(full0, store.cut, acked, floor, handled, applied, starts, skipped);
      Refreshed(full0);
      WasContinued(old(At()), At(), upTo, at, time, cmdId, fl, saved, steps);
    }

    /** The state at a sequence, if an engine may continue the execution on it with the given sequence and purge up to fl. */
    method Continuable(upTo: nat, at: nat, fl: nat) returns (x: Option<Loaded>)
      requires Valid()
      ensures x.Some? ==>
                && 0 < Reach(store.full, upTo) && Whole(store.full, Reach(store.full, upTo))
                && IsLoaded(store.f, store.exec, store.full, x.value, Reach(store.full, upTo))
                && LastBaseOf(store.full[..Reach(store.full, upTo)]) == LastBaseOf(store.full)
                && at > store.full[|store.full| - 1].at && (acked == |store.full| || fl < store.full[acked].at)
    {
      hide FoldRecs, HistoryOk, LiveOk, SnapOk, ArchiveOk, StateAt, AckedOf, RecordedOf, Whole, IsLoaded, LastBaseOf;
      AckedWhole(store.full, store.cut, acked, floor, handled, applied, starts, skipped);
      var y := store.Load(0);
      x := store.Load(upTo);
      var done := Finished(fl);
      if x.value.st.book.events == 0 || x.value.st.book.base != y.value.st.book.base || at <= y.value.last || !done {
        return None;
      }
      LoadedWhole(store.f, store.exec, store.full, upTo, x.value);
      SameBase(store.f, store.exec, store.full, upTo, x.value, y.value);
    }

    /** A purge of what precedes the last base and was acknowledged. */
    method Purge(fl: nat)
      requires Valid()
      modifies store
      ensures Valid() && Does(Act.Purge(fl), old(At()), At())
    {
      hide FoldRecs, HistoryOk, LiveOk, SnapOk, ArchiveOk, StateAt, AckedOf, RecordedOf, Whole, IsLoaded, LastBaseOf;
      CutAcked(store.full, store.cut, acked, floor, handled, applied, starts, skipped);
      ghost var full0, cut0 := store.full, store.cut;
      var done := Finished(fl);
      var i := store.LastBase(store.live);
      if i < 0 || !done {
        return;
      }
      BaseLive(store, i);
      store.PurgeBefore(if store.live[i].at < fl + 1 then store.live[i].at else fl + 1);
      PurgedAcked(store, full0, cut0, fl, acked, floor, handled, applied, starts, skipped);
      CutAcked(full0, store.cut, acked, floor, handled, applied, starts, skipped);
      Refreshed(full0);
    }

    // ---- What dispatchers do ----

    /** A dispatcher joins, or starts again after a crash: it keeps nothing. */
    method Join(who: nat)
      requires Valid()
      modifies this`dispatchers
      ensures Valid() && fresh(dispatchers.Values - old(dispatchers.Values)) && Does(Act.Join(who), old(At()), At())
    {
      hide FoldRecs, HistoryOk, LiveOk, SnapOk, ArchiveOk, StateAt, AckedOf, RecordedOf, Whole, IsLoaded;
      var d := new Dispatcher(store);
      dispatchers := dispatchers[who := d];
    }

    /** The next decision is delivered to a dispatcher; the effect numbered fails, if there is one, fails. */
    method Deliver(who: nat, fails: nat)
      requires Valid()
      modifies this`applied, this`starts, this`handled, dispatchers.Values
      ensures Valid() && Does(Act.Deliver(who, fails), old(At()), At())
    {
      hide FoldRecs, HistoryOk, LiveOk, SnapOk, ArchiveOk, StateAt, AckedOf, RecordedOf, Whole, IsLoaded, Does, AppliedAt, Dispatcher.Valid,
           Store.Valid;
      var evs := Pending();
      if who !in dispatchers || evs == [] {
        NotDelivered(At(), who, fails);
        return;
      }
      AckedWhole(store.full, store.cut, acked, floor, handled, applied, starts, skipped);
      var ok, ran := dispatchers[who].ApplyDecision(evs, fails, acked);
      ghost var a := Applied(evs, ran, ok);
      AppliedNow(store.f, store.exec, store.full, a, acked);
      OneMore(store.f, store.exec, store.full, store.cut, acked, floor, handled, applied, starts, skipped, over, a);
      applied, starts := applied + [Applied(evs, ran, ok)], starts + [acked];
      handled := handled || ok;
      Delivered(old(At()), At(), who, fails, a);
    }

    /** A dispatcher looks up whether the attempt that event n of the next decision schedules is over. */
    method Look(who: nat, n: nat)
      requires Valid()
      modifies this`over, dispatchers.Values
      ensures Valid() && Does(Act.Look(who, n), old(At()), At())
    {
      hide FoldRecs, HistoryOk, LiveOk, SnapOk, ArchiveOk, StateAt, AckedOf, Whole, IsLoaded, AppliedAt;
      var evs := Pending();
      if who !in dispatchers || n >= |evs| || !evs[n].ev.body.OfNode? || !evs[n].ev.body.work.Scheduled? {
        return;
      }
      var ended := dispatchers[who].EndedAtHead(evs[n], acked + n);
      if ended {
        over := over + {acked + n};
      }
    }

    /** A dispatcher that applied the next decision acknowledges it. */
    method Acknowledge()
      requires Valid()
      modifies this`floor, this`acked, this`handled
      ensures Valid() && Does(Act.Acknowledge, old(At()), At())
    {
      hide FoldRecs, HistoryOk, LiveOk, SnapOk, ArchiveOk, StateAt, Whole, IsLoaded, RecordedOf, Covered, Dispatcher.Valid, Sorted;
      if handled {
        var evs := Pending();
        SortedHistory(store.f, store.exec, store.full);
        NextAcked(store.full, store.cut, acked, floor, handled, applied, starts, skipped, |evs|, skipped);
        floor, acked, handled := evs[0].at, acked + |evs|, false;
      }
    }

    /** A dispatcher acknowledges the next decision without applying it, the execution being quarantined. */
    method Skip(who: nat)
      requires Valid()
      modifies this`floor, this`acked, this`handled, this`skipped
      ensures Valid() && Does(Act.Skip(who), old(At()), At())
    {
      hide FoldRecs, HistoryOk, LiveOk, SnapOk, ArchiveOk, StateAt, Whole, IsLoaded, RecordedOf, Covered, AckedOf, Dispatcher.Valid, Sorted;
      var evs := Pending();
      if who in dispatchers && evs != [] {
        SortedHistory(store.f, store.exec, store.full);
        NextAcked(store.full, store.cut, acked, floor, handled, applied, starts, skipped, |evs|, skipped + {evs[0].at});
        skipped := skipped + {evs[0].at};
        floor, acked, handled := evs[0].at, acked + |evs|, false;
      }
    }

    method Perform(act: Act)
      requires Valid()
      modifies this, store, dispatchers.Values
      ensures Valid() && fresh(dispatchers.Values - old(dispatchers.Values)) && Does(act, old(At()), At())
    {
      hide Valid, Does;
      match act {
        case Write(at, evs) => Write(at, evs);
        case Save(upTo) => Save(upTo);
        case Continue(upTo, at, time, cmdId, fl, saved, steps) => Continue(upTo, at, time, cmdId, fl, saved, steps);
        case Purge(fl) => Purge(fl);
        case Join(who) => Join(who);
        case Deliver(who, fails) => Deliver(who, fails);
        case Look(who, n) => Look(who, n);
        case Acknowledge => Acknowledge();
        case Skip(who) => Skip(who);
      }
    }

    method PerformAll(acts: seq<Act>) returns (ghost stages: seq<Stage>)
      requires Valid()
      modifies this, store, dispatchers.Values
      ensures Valid()
      ensures |stages| == |acts| + 1 && stages[0] == old(At()) && stages[|acts|] == At()
      ensures forall i :: 0 <= i < |acts| ==> Does(acts[i], stages[i], stages[i + 1])
    {
      hide Valid, Does, At;
      stages := [At()];
      for i := 0 to |acts|
        invariant Valid() && fresh(dispatchers.Values - old(dispatchers.Values))
        invariant |stages| == i + 1 && stages[0] == old(At()) && stages[i] == At()
        invariant forall j :: 0 <= j < i ==> Does(acts[j], stages[j], stages[j + 1])
      {
        Perform(acts[i]);
        stages := stages + [At()];
      }
    }
  }

  lemma LoadedWhole(f: Flow, exec: string, full: seq<Rec>, upTo: nat, x: Loaded)
    requires HistoryOk(f, exec, full) && IsLoaded(f, exec, full, x, Reach(full, upTo))
    ensures Whole(full, Reach(full, upTo)) && x.st.book.events == Reach(full, upTo)
  {
    hide FoldRecs, StateAt;
    StateCounts(f, exec, full, Reach(full, upTo));
  }

  /** States with the same base are of the same stretch between continuations. */
  lemma SameBase(f: Flow, exec: string, full: seq<Rec>, upTo: nat, x: Loaded, y: Loaded)
    requires HistoryOk(f, exec, full) && IsLoaded(f, exec, full, x, Reach(full, upTo)) && IsLoaded(f, exec, full, y, Reach(full, 0))
    requires 0 < Reach(full, upTo) && x.st.book.base == y.st.book.base
    ensures LastBaseOf(full[..Reach(full, upTo)]) == LastBaseOf(full) && y.last == full[|full| - 1].at
  {
    hide FoldRecs, StateAt, LastBaseOf, Reach, HistoryOk;
    assert full[..|full|] == full;
    BaseIs(f, exec, full, Reach(full, upTo));
    BaseIs(f, exec, full, |full|);
  }

  /** The last base is in the live log. */
  lemma BaseLive(store: Store, i: nat)
    requires store.Valid() && i == LastBaseOf(store.live) && i < |store.live|
    ensures |store.full| > 0 ==> store.live[i].at <= store.full[LastBaseOf(store.full)].at
  {
    hide FoldRecs, SnapOk, ArchiveOk, StateAt;
    SortedHistory(store.f, store.exec, store.full);
    var full, cut := store.full, store.cut;
    assert store.live[i] == full[cut + i];
    assert BasesState(full[cut + i]);
    assert cut + i <= LastBaseOf(full);
  }

  /** What is purged up to an acknowledged sequence was acknowledged. */
  lemma PurgedAcked(store: Store, full0: seq<Rec>, cut0: nat, fl: nat, acked: nat, floor: nat, handled: bool, applied: seq<Applied>,
                    starts: seq<nat>, skipped: set<nat>)
    requires store.Valid() && Grown(full0, store.full) && AckedOf(full0, cut0, acked, floor, handled, applied, starts, skipped)
    requires acked == |full0| || fl < full0[acked].at
    requires cut0 <= store.cut && (forall i :: cut0 <= i < store.cut ==> store.full[i].at <= fl)
    requires |store.full| <= |full0| + 1
    ensures AckedOf(full0, store.cut, acked, floor, handled, applied, starts, skipped)
  {
    hide FoldRecs, SnapOk, ArchiveOk, StateAt, Covered, LastBaseOf;
    SortedHistory(store.f, store.exec, store.full);
  }

  lemma AppliedNow(f: Flow, exec: string, full: seq<Rec>, a: Applied, k: nat)
    requires k + |a.evs| <= |full| && a.evs == full[k..k + |a.evs|] && |a.ran| <= |a.evs| && (a.ok <==> |a.ran| == |a.evs|)
    requires forall i :: 0 <= i < |a.ran| ==> StateAt(f, exec, full, k + i + 1) == Some(a.ran[i])
    ensures AppliedAt(f, exec, full, a, k)
  {
    hide StateAt;
  }

  lemma NotContinued(s: Stage, upTo: nat, at: nat, time: int, cmdId: string, fl: nat, saved: bool, steps: nat)
    requires s.cut <= s.acked
    ensures Does(Act.Continue(upTo, at, time, cmdId, fl, saved, steps), s, s)
  {
  }

  lemma WasContinued(s: Stage, t: Stage, upTo: nat, at: nat, time: int, cmdId: string, fl: nat, saved: bool, steps: nat)
    requires t == s.(full := t.full, cut := t.cut) && s.cut <= t.cut <= s.acked
    requires t.full != s.full ==>
               |t.full| == |s.full| + 1 && s.full <= t.full && IsContinued(t.full[|s.full|]) && t.full[|s.full|].at == at
    ensures Does(Act.Continue(upTo, at, time, cmdId, fl, saved, steps), s, t)
  {
  }

  lemma NotDelivered(s: Stage, who: nat, fails: nat)
    requires who !in s.who || s.acked == |s.full|
    ensures Does(Act.Deliver(who, fails), s, s)
  {
  }

  lemma Delivered(s: Stage, t: Stage, who: nat, fails: nat, a: Applied)
    requires who in s.who && s.acked < |s.full| && EndsAt(s.full, s.acked, s.acked + |a.evs|)
    requires a.evs == s.full[s.acked..s.acked + |a.evs|] && (a.ok <==> fails >= |a.evs|)
    requires t == s.(applied := s.applied + [a], starts := s.starts + [s.acked], handled := s.handled || a.ok)
    ensures Does(Act.Deliver(who, fails), s, t)
  {
    hide EndsAt;
  }

  lemma CutAcked(full: seq<Rec>, cut: nat, acked: nat, floor: nat, handled: bool, applied: seq<Applied>, starts: seq<nat>, skipped: set<nat>)
    requires AckedOf(full, cut, acked, floor, handled, applied, starts, skipped)
    ensures cut <= acked <= |full|
  {
  }

  lemma AckedWhole(full: seq<Rec>, cut: nat, acked: nat, floor: nat, handled: bool, applied: seq<Applied>, starts: seq<nat>, skipped: set<nat>)
    requires AckedOf(full, cut, acked, floor, handled, applied, starts, skipped)
    ensures acked <= |full| && Whole(full, acked) && |starts| == |applied|
  {
  }

  /** The next decision, of n events, is acknowledged: it was applied, or is skipped. */
  lemma NextAcked(full: seq<Rec>, cut: nat, acked: nat, floor: nat, handled: bool, applied: seq<Applied>, starts: seq<nat>,
                  skipped: set<nat>, n: nat, skipped': set<nat>)
    requires AckedOf(full, cut, acked, floor, handled, applied, starts, skipped) && Sorted(full)
    requires 0 < n && acked + n <= |full| && Whole(full, acked + n)
    requires forall i :: acked <= i < |full| ==> (i < acked + n <==> full[i].at == full[acked].at)
    requires skipped' == skipped + {full[acked].at} || (skipped' == skipped && handled)
    ensures AckedOf(full, cut, acked + n, full[acked].at, false, applied, starts, skipped')
  {
    hide Covered;
  }

  /** One more application of the next decision. */
  lemma OneMore(f: Flow, exec: string, full: seq<Rec>, cut: nat, acked: nat, floor: nat, handled: bool, applied: seq<Applied>,
                starts: seq<nat>, skipped: set<nat>, over: set<nat>, a: Applied)
    requires AckedOf(full, cut, acked, floor, handled, applied, starts, skipped) && RecordedOf(f, exec, full, applied, starts, over)
    requires a.evs != [] && AppliedAt(f, exec, full, a, acked)
    requires forall i :: acked <= i < |full| ==> (i < acked + |a.evs| <==> full[i].at == full[acked].at)
    ensures AckedOf(full, cut, acked, floor, handled || a.ok, applied + [a], starts + [acked], skipped)
    ensures RecordedOf(f, exec, full, applied + [a], starts + [acked], over)
  {
    hide StateAt, Over;
    var applied', starts' := applied + [a], starts + [acked];
    forall i: nat | Covered(applied, starts, i) ensures Covered(applied', starts', i) {
      var n :| 0 <= n < |applied| && applied[n].ok && starts[n] <= i < starts[n] + |applied[n].evs|;
      assert applied'[n] == applied[n] && starts'[n] == starts[n];
    }
    assert applied'[|applied|] == a && starts'[|applied|] == acked;
    if a.ok { forall i: nat | acked <= i < acked + |a.evs| ensures Covered(applied', starts', i) {} }
    hide Covered;
    forall n | 0 <= n < |applied'| ensures AppliedAt(f, exec, full, applied'[n], starts'[n]) {
      if n < |applied| { assert AppliedAt(f, exec, full, applied[n], starts[n]); }
    }
  }

  /** The decision that follows the first acked events of the history, read from its live part. */
  method FirstAfter(live: seq<Rec>, floor: nat, ghost full: seq<Rec>, ghost cut: nat, ghost acked: nat) returns (evs: seq<Rec>)
    requires Sorted(full) && cut <= acked <= |full| && live == full[cut..] && Whole(full, acked) && floor == SeqOf(full, acked)
    ensures acked + |evs| <= |full| && evs == full[acked..acked + |evs|] && Whole(full, acked + |evs|)
    ensures evs == [] <==> acked == |full|
    ensures forall i :: acked <= i < |full| ==> (i < acked + |evs| <==> full[i].at == full[acked].at)
  {
    hide Sorted, Whole;
    LaterThanAcked(full, acked);
    var i := 0;
    while i < |live| && live[i].at <= floor
      invariant 0 <= i <= acked - cut
    {
      assert live[i] == full[cut + i];
      i := i + 1;
    }
    NotBefore(full, acked, cut + i);
    var j := i;
    while j < |live| && live[j].at == live[i].at
      invariant i <= j <= |live| && forall k :: cut + i <= k < cut + j ==> full[k].at == full[acked].at
    {
      assert live[j] == full[cut + j];
      j := j + 1;
    }
    evs := live[i..j];
    DecisionEnds(full, acked, cut + j);
  }

  lemma LaterThanAcked(full: seq<Rec>, acked: nat)
    requires Sorted(full) && acked <= |full| && Whole(full, acked)
    ensures acked < |full| ==> full[acked].at > SeqOf(full, acked)
  {
  }

  lemma DecisionEnds(full: seq<Rec>, first: nat, end: nat)
    requires Sorted(full) && first <= end <= |full| && (forall k :: first <= k < end ==> full[k].at == full[first].at)
    requires end < |full| ==> first < end && full[end].at != full[first].at
    ensures Whole(full, end)
    ensures forall i :: first <= i < |full| ==> (i < end <==> full[i].at == full[first].at)
  {
  }

  lemma NotBefore(full: seq<Rec>, acked: nat, i: nat)
    requires Sorted(full) && i <= acked <= |full| && (i < |full| ==> full[i].at > SeqOf(full, acked))
    ensures i == acked
  {
  }

  /** The attempt that event i schedules is not running at the end of the history, nor at any point from some later one on. */
  ghost predicate OverForGood(f: Flow, exec: string, full: seq<Rec>, i: nat) {
    && i < |full| && full[i].ev.body.OfNode? && full[i].ev.body.work.Scheduled?
    && exists c: nat :: i < c <= |full| && NotLiveFrom(f, exec, full, c, full[i].ev.body.work)
  }

  ghost predicate NotLiveFrom(f: Flow, exec: string, full: seq<Rec>, c: nat, e: NodeEvent)
    requires e.Scheduled?
  {
    forall later :: c <= later <= |full| ==> StateAt(f, exec, full, later).Some? && !AttemptLive(StateAt(f, exec, full, later).value, e)
  }

  lemma OverStaysOver(f: Flow, exec: string, full: seq<Rec>, i: nat)
    requires Over(f, exec, full, i) && Legal(f, New(exec), Events(full)) && ForksFirst(Events(full))
    ensures OverForGood(f, exec, full, i)
  {
    hide StateAt, Legal, ForksFirst, AttemptLive;
    var e := full[i].ev.body.work;
    var c: nat :| i < c <= |full| && StateAt(f, exec, full, c).Some? && !AttemptLive(StateAt(f, exec, full, c).value, e);
    forall later | c <= later <= |full|
      ensures StateAt(f, exec, full, later).Some? && !AttemptLive(StateAt(f, exec, full, later).value, e)
    {
      SuppressionLosesNothing(f, exec, full, i, c, later);
    }
    assert NotLiveFrom(f, exec, full, c, e);
  }

  /** In whatever order decisions, snapshots and continuations are stored, purged, delivered to one dispatcher or another,
      delivered again, applied with or without a failure, skipped and acknowledged, and dispatchers crash: every decision was
      applied to the fold of exactly the events before it, in order; every decision acknowledged was applied with all its
      effects or skipped; every other one is still in the live log; and an attempt was left out only if a later state does not show
      it running, so that, if the history is one that engines write, it is not running from there on. stages are what
      precedes and follows each act. */
  method Run(f: Flow, exec: string, acts: seq<Act>) returns (d: Delivery, ghost stages: seq<Stage>)
    ensures fresh(d) && fresh(d.store) && d.Valid() && d.store.f == f && d.store.exec == exec
    ensures |stages| == |acts| + 1 && stages[0] == Stage([], 0, 0, false, [], [], {}, {}) && stages[|acts|] == d.At()
    ensures forall i :: 0 <= i < |acts| ==> Does(acts[i], stages[i], stages[i + 1])
    ensures |d.starts| == |d.applied| && d.store.cut <= d.acked <= |d.store.full|
    ensures forall n :: 0 <= n < |d.applied| ==> AppliedAt(f, exec, d.store.full, d.applied[n], d.starts[n])
    ensures forall m, n :: 0 <= m <= n < |d.starts| ==> d.starts[m] <= d.starts[n] <= d.acked
    ensures forall i :: 0 <= i < d.acked ==> Covered(d.applied, d.starts, i) || d.store.full[i].at in d.skipped
    ensures d.store.full[d.acked..] == d.store.live[d.acked - d.store.cut..]
    ensures forall i | i in d.over :: Over(f, exec, d.store.full, i)
    ensures Legal(f, New(exec), Events(d.store.full)) && ForksFirst(Events(d.store.full)) ==>
              forall i | i in d.over :: OverForGood(f, exec, d.store.full, i)
  {
    hide Delivery.Valid, Does, Delivery.At, AppliedAt, Covered, Over, OverForGood, Legal, ForksFirst;
    d := new Delivery(f, exec);
    stages := d.PerformAll(acts);
    Concludes(d);
  }

  lemma Concludes(d: Delivery)
    requires d.Valid()
    ensures |d.starts| == |d.applied| && d.store.cut <= d.acked <= |d.store.full|
    ensures forall n :: 0 <= n < |d.applied| ==> AppliedAt(d.store.f, d.store.exec, d.store.full, d.applied[n], d.starts[n])
    ensures forall m, n :: 0 <= m <= n < |d.starts| ==> d.starts[m] <= d.starts[n] <= d.acked
    ensures forall i :: 0 <= i < d.acked ==> Covered(d.applied, d.starts, i) || d.store.full[i].at in d.skipped
    ensures d.store.full[d.acked..] == d.store.live[d.acked - d.store.cut..]
    ensures forall i | i in d.over :: Over(d.store.f, d.store.exec, d.store.full, i)
    ensures Legal(d.store.f, New(d.store.exec), Events(d.store.full)) && ForksFirst(Events(d.store.full)) ==>
              forall i | i in d.over :: OverForGood(d.store.f, d.store.exec, d.store.full, i)
  {
    hide AppliedAt, Covered, Over, HistoryOk, SnapOk, ArchiveOk, Whole, LastBaseOf, Legal, ForksFirst, OverForGood;
    if Legal(d.store.f, New(d.store.exec), Events(d.store.full)) && ForksFirst(Events(d.store.full)) {
      forall i | i in d.over ensures OverForGood(d.store.f, d.store.exec, d.store.full, i) {
        OverStaysOver(d.store.f, d.store.exec, d.store.full, i);
      }
    }
  }
}
