/** The history of one execution as stored: events with the stream sequence of their decision. */
module Histories {
  import opened Values
  import opened Flows
  import opened Fold

  /** An event and the sequence of the decision it is part of. */
  datatype Rec = Rec(at: nat, ev: Event)

  /** Folds records in order. */
  function FoldRecs(f: Flow, s: State, recs: seq<Rec>): Option<State> {
    if |recs| == 0 then Some(s)
    else
      var before := FoldRecs(f, s, recs[..|recs| - 1]);
      if before.None? then None else ApplyRec(f, before.value, recs[|recs| - 1])
  }

  function ApplyRec(f: Flow, s: State, r: Rec): Option<State> { Apply(f, s, r.ev) }

  /** The sequence of the k-th event; 0 before the first. */
  function SeqOf(full: seq<Rec>, k: nat): nat
    requires k <= |full|
  {
    if k == 0 then 0 else full[k - 1].at
  }

  lemma {:induction false} FoldRecsConcat(f: Flow, s: State, a: seq<Rec>, b: seq<Rec>)
    requires FoldRecs(f, s, a).Some?
    ensures FoldRecs(f, s, a + b) == FoldRecs(f, FoldRecs(f, s, a).value, b)
    decreases |b|
  {
    hide ApplyRec;
    if |b| == 0 {
      assert a + b == a;
    } else {
      assert (a + b)[..|a + b| - 1] == a + b[..|b| - 1];
      FoldRecsConcat(f, s, a, b[..|b| - 1]);
    }
  }

  lemma {:induction false} FoldRecsPrefix(f: Flow, s: State, recs: seq<Rec>, k: nat)
    requires FoldRecs(f, s, recs).Some? && k <= |recs|
    ensures FoldRecs(f, s, recs[..k]).Some?
    decreases |recs|
  {
    hide ApplyRec;
    if k == |recs| {
      assert recs[..k] == recs;
    } else {
      assert recs[..|recs| - 1][..k] == recs[..k];
      FoldRecsPrefix(f, s, recs[..|recs| - 1], k);
    }
  }

  predicate IsContinued(r: Rec) { r.ev.body.OfLife? && r.ev.body.life.Continued? }

  predicate IsFirst(r: Rec) { r.ev.body.OfLife? && (r.ev.body.life.Started? || r.ev.body.life.Forked?) }

  predicate BasesState(r: Rec) { IsBase(r.ev.body) }

  /** Decisions are stored in sequence order. */
  predicate Sorted(recs: seq<Rec>) {
    (forall i :: 0 <= i < |recs| ==> recs[i].at > 0) && forall i, j :: 0 <= i < j < |recs| ==> recs[i].at <= recs[j].at
  }

  /** The full history of an execution: it starts or forks first and only then, every event carries its position, and
      all of it folds. */
  ghost predicate HistoryOk(f: Flow, exec: string, full: seq<Rec>) {
    && Sorted(full) && FoldRecs(f, New(exec), full).Some?
    && (forall i :: 0 <= i < |full| ==> full[i].ev.index == i + 1 && (IsFirst(full[i]) <==> i == 0))
  }

  /** No decision is split at position k. */
  predicate Whole(full: seq<Rec>, k: nat)
    requires k <= |full|
  {
    0 < k < |full| ==> full[k - 1].at < full[k].at
  }

  /** How many of the records are at most at sequence upTo; 0 is no limit. */
  function Reach(recs: seq<Rec>, upTo: nat): (k: nat)
    ensures k <= |recs|
    ensures upTo == 0 ==> k == |recs|
    ensures Sorted(recs) && upTo > 0 ==> forall i :: 0 <= i < |recs| ==> (i < k <==> recs[i].at <= upTo)
  {
    if |recs| == 0 || upTo == 0 then |recs|
    else if recs[|recs| - 1].at <= upTo then |recs|
    else Reach(recs[..|recs| - 1], upTo)
  }

  // ---- What a prefix folds to ----

  /** The state after the first k events. */
  function StateAt(f: Flow, exec: string, full: seq<Rec>, k: nat): Option<State>
    requires k <= |full|
  {
    FoldRecs(f, New(exec), full[..k])
  }

  lemma StateStep(f: Flow, exec: string, full: seq<Rec>, k: nat)
    requires HistoryOk(f, exec, full) && k < |full|
    ensures StateAt(f, exec, full, k).Some?
    ensures StateAt(f, exec, full, k + 1) == ApplyRec(f, StateAt(f, exec, full, k).value, full[k])
    ensures StateAt(f, exec, full, k + 1).Some?
  {
    hide ApplyRec;
    FoldRecsPrefix(f, New(exec), full, k);
    FoldRecsPrefix(f, New(exec), full, k + 1);
    assert full[..k + 1][..k] == full[..k];
  }

  /** The state after k events has counted k. */
  lemma {:induction false} StateCounts(f: Flow, exec: string, full: seq<Rec>, k: nat)
    requires HistoryOk(f, exec, full) && k <= |full|
    ensures StateAt(f, exec, full, k).Some? && StateAt(f, exec, full, k).value.book.events == k
    decreases k
  {
    if k == 0 {
      assert full[..0] == [];
    } else {
      hide FoldRecs;
      StateCounts(f, exec, full, k - 1);
      StateStep(f, exec, full, k - 1);
      Counts(f, StateAt(f, exec, full, k - 1).value, full[k - 1].ev);
    }
  }

  lemma Counts(f: Flow, s: State, ev: Event)
    requires Apply(f, s, ev).Some? && ev.index == s.book.events + 1
    ensures Apply(f, s, ev).value.book.events == ev.index
  {
    hide DataStep, ControlStep, Foldable, Defaults;
  }

  /** A continuation or fork is folded without what precedes it. */
  lemma BaseForgets(f: Flow, s: State, t: State, ev: Event)
    requires ev.body.OfLife? && (ev.body.life.Forked? || ev.body.life.Continued?)
    ensures Apply(f, s, ev) == Apply(f, t, ev)
  {
  }

  /** Folding from an event that bases a state gives the state of the whole history. */
  lemma FoldFromBase(f: Flow, exec: string, full: seq<Rec>, b: nat, k: nat)
    requires HistoryOk(f, exec, full) && b < k <= |full| && BasesState(full[b])
    ensures FoldRecs(f, New(exec), full[b..k]) == StateAt(f, exec, full, k)
  {
    if b == 0 {
      assert full[0..k] == full[..k];
    } else {
      assert IsContinued(full[b]);
      StateStep(f, exec, full, b);
      var s := StateAt(f, exec, full, b).value;
      BaseForgets(f, s, New(exec), full[b].ev);
      hide Apply, HistoryOk;
      assert full[..b + 1] + full[b + 1..k] == full[..k];
      assert full[b..k] == [full[b]] + full[b + 1..k];
      assert [full[b]][..0] == [];
      assert FoldRecs(f, New(exec), [full[b]]) == StateAt(f, exec, full, b + 1);
      FoldRecsConcat(f, New(exec), full[..b + 1], full[b + 1..k]);
      FoldRecsConcat(f, New(exec), [full[b]], full[b + 1..k]);
    }
  }

  // ---- Bases and segments ----

  /** Position of the last base; -1 if there is none. */
  function LastBaseOf(recs: seq<Rec>): (b: int)
    ensures -1 <= b < |recs|
    ensures b >= 0 ==> BasesState(recs[b])
    ensures forall i :: b < i < |recs| ==> !BasesState(recs[i])
  {
    if |recs| == 0 then -1
    else if BasesState(recs[|recs| - 1]) then |recs| - 1
    else LastBaseOf(recs[..|recs| - 1])
  }

  /** The base and the segments of a state are those of the last continuation. */
  lemma {:induction false} BaseIs(f: Flow, exec: string, full: seq<Rec>, k: nat)
    requires HistoryOk(f, exec, full) && 0 < k <= |full|
    ensures LastBaseOf(full[..k]) >= 0 && StateAt(f, exec, full, k).Some?
    ensures var b := LastBaseOf(full[..k]);
            var s := StateAt(f, exec, full, k).value;
            if IsContinued(full[b]) then
              s.book.base == b + 1 && s.book.segments == full[b].ev.body.life.state.book.segments
            else b == 0 && s.book.base == 0 && s.book.segments == []
    decreases k
  {
    hide FoldRecs;
    StateStep(f, exec, full, k - 1);
    assert full[..k][..k - 1] == full[..k - 1];
    var s := StateAt(f, exec, full, k - 1).value;
    if k == 1 {
      assert full[..0] == [] && IsFirst(full[0]);
      assert s == New(exec) by { NothingFolded(f, exec, full); }
      BooksKept(f, s, full[0].ev);
    } else {
      assert !IsFirst(full[k - 1]);
      BaseIs(f, exec, full, k - 1);
      BooksKept(f, s, full[k - 1].ev);
    }
  }

  lemma NothingFolded(f: Flow, exec: string, full: seq<Rec>)
    ensures StateAt(f, exec, full, 0) == Some(New(exec))
  {
    assert full[..0] == [];
  }

  /** Only forks and continuations touch the base and the segments. */
  lemma BooksKept(f: Flow, s: State, ev: Event)
    requires Apply(f, s, ev).Some?
    ensures var b := Apply(f, s, ev).value.book;
            if ev.body.OfLife? && ev.body.life.Continued? then
              b.base == ev.index && b.segments == ev.body.life.state.book.segments
            else if ev.body.OfLife? && ev.body.life.Forked? then b.base == 0 && b.segments == []
            else b.base == s.book.base && b.segments == s.book.segments
  {
    hide DataStep, ControlStep, Foldable, Defaults;
  }
}
