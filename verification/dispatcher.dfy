/** The dispatcher: applies stored decisions in order and runs the effects of their events. */
module Dispatching {
  import opened Values
  import opened Flows
  import opened Fold
  import opened Guards
  import opened Runs
  import opened Histories
  import opened Loading
  import opened WrittenLogs

  class Dispatcher {
    const store: Store

    /** The state of the execution after the last decision applied here, and at the head of the log when last looked up. */
    var cache: Option<Loaded>
    var head: Option<Loaded>
    ghost var cacheAt: nat
    ghost var headAt: nat

    /** Whatever other dispatchers did meanwhile, what is kept is the state after some decision. */
    ghost predicate Valid()
      reads this, store
    {
      && store.Valid()
      && (cache.Some? ==> AtDecision(store, cache.value, cacheAt))
      && (head.Some? ==> AtDecision(store, head.value, headAt))
    }

    constructor (store: Store)
      requires store.Valid()
      ensures Valid() && this.store == store
    {
      this.store := store;
      cache, head, cacheAt, headAt := None, None, 0, 0;
    }

    /** The state to apply a decision to; r is its first event, at position k. The cached state is trusted only when it
        has folded exactly the events before it; a continuation needs none of them. */
    method StateBefore(r: Rec, ghost k: nat) returns (st: State)
      requires Valid() && k < |store.full| && r == store.full[k] && Whole(store.full, k)
      ensures !IsContinued(r) ==> StateAt(store.f, store.exec, store.full, k) == Some(st)
      ensures ApplyRec(store.f, st, r) == StateAt(store.f, store.exec, store.full, k + 1)
    {
      hide FoldRecs, LiveOk, SnapOk, ArchiveOk, Apply;
      StateStep(store.f, store.exec, store.full, k);
      if cache.Some? && cache.value.st.book.events == r.ev.index - 1 && cache.value.last < r.at {
        StateCounts(store.f, store.exec, store.full, cacheAt);
        return cache.value.st;
      }
      if IsContinued(r) {
        BaseForgets(store.f, New(store.exec), StateAt(store.f, store.exec, store.full, k).value, r.ev);
        return New(store.exec);
      }
      if r.ev.index == 1 {
        NothingFolded(store.f, store.exec, store.full);
        return New(store.exec);
      }
      ReachIs(store.full, r.at - 1, k);
      var x := store.Load(r.at - 1);
      return x.value.st;
    }

    /** Folds a decision, events k to k + |evs|, and runs the effects of its events in order, each with the state after it;
        the effect numbered fails, if there is one, fails. ran lists the states the effects ran with. */
    method ApplyDecision(evs: seq<Rec>, fails: nat, ghost k: nat) returns (ok: bool, ran: seq<State>)
      requires Valid() && |evs| > 0 && k + |evs| <= |store.full| && evs == store.full[k..k + |evs|]
      requires Whole(store.full, k) && Whole(store.full, k + |evs|)
      modifies this`cache, this`cacheAt
      ensures Valid() && |ran| <= |evs|
      ensures forall i :: 0 <= i < |ran| ==> StateAt(store.f, store.exec, store.full, k + i + 1) == Some(ran[i])
      ensures (ok <==> |ran| == |evs|) && (ok <==> fails >= |evs|)
      ensures if ok then cache.Some? && IsLoaded(store.f, store.exec, store.full, cache.value, k + |evs|) else cache.None?
    {
      hide FoldRecs, HistoryOk, LiveOk, SnapOk, ArchiveOk, Apply, Whole, StateAt;
      ran := [];
      var st := StateBefore(evs[0], k);
      for i := 0 to |evs|
        invariant |ran| == i && i <= fails && Valid() && cache == old(cache)
        invariant if i == 0 then ApplyRec(store.f, st, evs[0]) == StateAt(store.f, store.exec, store.full, k + 1)
                  else StateAt(store.f, store.exec, store.full, k + i) == Some(st)
        invariant forall j :: 0 <= j < i ==> StateAt(store.f, store.exec, store.full, k + j + 1) == Some(ran[j])
      {
        assert evs[i] == store.full[k + i];
        StateStep(store.f, store.exec, store.full, k + i);
        st := Apply(store.f, st, evs[i].ev).value;
        if i == fails {
          cache, cacheAt := None, 0;
          return false, ran;
        }
        ran := ran + [st];
      }
      cache, cacheAt := Some(Loaded(st, evs[|evs| - 1].at)), k + |evs|;
      ok := true;
    }

    /** Whether the attempt that event i schedules is no longer running in a state that has folded the event. */
    method EndedAtHead(r: Rec, ghost i: nat) returns (over: bool)
      requires Valid() && i < |store.full| && r == store.full[i] && r.ev.body.OfNode? && r.ev.body.work.Scheduled?
      modifies this`head, this`headAt
      ensures Valid()
      ensures over ==>
                exists c: nat :: i < c <= |store.full| && StateAt(store.f, store.exec, store.full, c).Some?
                                 && !AttemptLive(StateAt(store.f, store.exec, store.full, c).value, r.ev.body.work)
    {
      hide FoldRecs, LiveOk, SnapOk, ArchiveOk, StateAt;
      if head.Some? && r.at <= head.value.last {
        LaterThan(store.full, headAt, i);
        return !AttemptLive(head.value.st, r.ev.body.work);
      }
      head, headAt := None, 0;
      var last := store.LastSeq();
      if last <= r.at {
        return false;
      }
      var x := store.Load(0);
      assert Reach(store.full, 0) == |store.full|;
      head, headAt := x, |store.full|;
      return !AttemptLive(x.value.st, r.ev.body.work);
    }
  }

  ghost predicate AtDecision(store: Store, x: Loaded, k: nat)
    reads store
  {
    IsLoaded(store.f, store.exec, store.full, x, k) && Whole(store.full, k)
  }

  /** The attempt is running in state s. */
  predicate AttemptLive(s: State, e: NodeEvent)
    requires e.Scheduled?
  {
    !Terminal(s.phase) && IsCurrent(s.ctl, e.key, e.generation, e.attempt)
  }

  /** A state whose sequence is not before that of event i has folded it. */
  lemma LaterThan(full: seq<Rec>, k: nat, i: nat)
    requires Sorted(full) && k <= |full| && i < |full| && Whole(full, k) && full[i].at <= SeqOf(full, k)
    ensures i < k
  {
  }

  // ---- Suppressed jobs ----

  /** An attempt that the dispatcher does not start because a state of the log at or after it does not show it running is
      not running at any later point of the log. */
  lemma SuppressionLosesNothing(f: Flow, exec: string, full: seq<Rec>, i: nat, c: nat, later: nat)
    requires Legal(f, New(exec), Events(full)) && i < c <= later <= |full|
    requires ForksFirst(Events(full)) && full[i].ev.body.OfNode? && full[i].ev.body.work.Scheduled?
    ensures StateAt(f, exec, full, c).Some? && StateAt(f, exec, full, later).Some?
    ensures var e := full[i].ev.body.work;
            !AttemptLive(StateAt(f, exec, full, c).value, e) ==> !AttemptLive(StateAt(f, exec, full, later).value, e)
  {
    hide FoldAll, FoldRecs, Legal, StateAt, IsCurrent;
    var evs := Events(full);
    var e := full[i].ev.body.work;
    StatesAlike(f, exec, full, c);
    StatesAlike(f, exec, full, later);
    assert Schedules(evs[i].body, e.key, e.generation, e.attempt);
    GenerationPositive(f, New(exec), evs, i);
    SuppressedForever(f, New(exec), evs, i, c, later, e.key, e.generation, e.attempt);
    if Terminal(At(f, New(exec), evs, c).phase) && c < |full| {
      LegalStep(f, New(exec), evs, c);
      OnlyForked(f, At(f, New(exec), evs, c), evs[c].body);
    }
  }
}
