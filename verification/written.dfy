/** What the engines write is a history the loader can read back. */
module WrittenLogs {
  import opened Values
  import opened Flows
  import opened Fold
  import opened Invariants
  import opened Guards
  import opened Forks
  import opened Runs
  import opened Histories

  function Events(recs: seq<Rec>): (evs: seq<Event>)
    ensures |evs| == |recs| && forall i :: 0 <= i < |recs| ==> evs[i] == recs[i].ev
  {
    seq(|recs|, i requires 0 <= i < |recs| => recs[i].ev)
  }

  lemma {:induction false} FoldsAlike(f: Flow, s: State, recs: seq<Rec>)
    ensures FoldRecs(f, s, recs) == FoldAll(f, s, Events(recs))
    decreases |recs|
  {
    hide Apply;
    if |recs| > 0 {
      var p := recs[..|recs| - 1];
      assert Events(recs)[..|recs| - 1] == Events(p);
      FoldsAlike(f, s, p);
    }
  }

  lemma StatesAlike(f: Flow, exec: string, full: seq<Rec>, k: nat)
    requires k <= |full|
    ensures StateAt(f, exec, full, k) == FoldAll(f, New(exec), Events(full)[..k])
  {
    hide FoldRecs, FoldAll;
    assert Events(full)[..k] == Events(full[..k]);
    FoldsAlike(f, New(exec), full[..k]);
  }

  /** Only what does not exist is started. */
  lemma StartsOnce(f: Flow, s: State, b: Body)
    requires Guard(f, s, b) && s.book.events > 0
    ensures !(b.OfLife? && b.life.Started?)
  {
    hide Boundary, NodeGuard, GraphGuard, WaitGuard, EnterGuard, FlowOutput;
  }

  /** What the engines write is a history the loader can read back: it starts or forks first and only then, every event
      carries its position, and all of it folds. */
  lemma LegalIsHistory(f: Flow, exec: string, full: seq<Rec>)
    requires Legal(f, New(exec), Events(full)) && Sorted(full) && ForksFirst(Events(full))
    ensures HistoryOk(f, exec, full)
  {
    hide FoldAll, FoldRecs, Legal, Sorted, After;
    var evs := Events(full);
    assert full[..|full|] == full;
    StatesAlike(f, exec, full, |full|);
    LegalPrefix(f, New(exec), evs, |full|);
    forall i | 0 <= i < |full| ensures full[i].ev.index == i + 1 && (IsFirst(full[i]) <==> i == 0) {
      Positions(f, exec, evs, i);
      LegalStep(f, New(exec), evs, i);
      LegalIndex(f, New(exec), evs, i);
      CountsOne(f, At(f, New(exec), evs, i), evs[i].body, evs[i].time);
      if i > 0 { StartsOnce(f, At(f, New(exec), evs, i), evs[i].body); }
      if i == 0 {
        StatesAlike(f, exec, full, 0);
        NothingFolded(f, exec, full);
        FirstIsFirst(f, exec, evs[0].body);
      }
    }
  }

  /** The same of an aborted fork that names children of its source. */
  lemma MisabortedIsHistory(f: Flow, exec: string, full: seq<Rec>)
    requires Misaborted(New(exec), Events(full)) && FoldAll(f, New(exec), Events(full)).Some? && Sorted(full)
    ensures HistoryOk(f, exec, full)
  {
    hide FoldAll, FoldRecs, Sorted, AbortsFork, InFlight;
    assert full[..|full|] == full;
    FoldsAlike(f, New(exec), full);
    var evs := Events(full);
    assert evs[0] == full[0].ev && evs[1] == full[1].ev;
  }
}
