/** Join verdicts: when a policy is decided, and that the order in which branches settle does not matter. */
module Joins {
  import opened Values
  import opened Flows
  import opened Invariants
  import opened Guards

  type Statuses = map<string, BranchStatus>

  /** after is before with some pending branches settled, in any way. */
  predicate Later(waits: seq<string>, before: Statuses, after: Statuses) {
    forall w | w in waits :: Get(before, w, Pending).Pending? || Get(after, w, Pending) == Get(before, w, Pending)
  }

  predicate AllSettled(waits: seq<string>, branches: Statuses) {
    forall w | w in waits :: !Get(branches, w, Pending).Pending?
  }

  /** Enough of the awaited branches succeeded. */
  predicate Reached(p: Policy, waits: seq<string>, branches: Statuses) {
    Count(waits, branches, Succeeded) >= Need(p, |waits|)
  }

  lemma {:induction false} CountLater(waits: seq<string>, before: Statuses, after: Statuses)
    requires Later(waits, before, after)
    ensures Count(waits, before, Succeeded) <= Count(waits, after, Succeeded)
    ensures Count(waits, after, Pending) <= Count(waits, before, Pending)
    ensures Count(waits, after, Succeeded) + Count(waits, after, Pending)
         <= Count(waits, before, Succeeded) + Count(waits, before, Pending)
    decreases |waits|
  {
    if |waits| > 0 {
      var last := |waits| - 1;
      assert waits[last] in waits;
      CountLater(waits[..last], before, after);
    }
  }

  lemma {:induction false} NonePending(waits: seq<string>, branches: Statuses)
    ensures Count(waits, branches, Pending) == 0 <==> AllSettled(waits, branches)
    decreases |waits|
  {
    if |waits| > 0 {
      var last := |waits| - 1;
      assert waits == waits[..last] + [waits[last]];
      NonePending(waits[..last], branches);
    }
  }

  /** A verdict stands whatever happens to the branches still pending. */
  lemma VerdictStable(p: Policy, waits: seq<string>, before: Statuses, after: Statuses)
    requires Verdict(p, waits, before).Some? && Later(waits, before, after)
    ensures Verdict(p, waits, after) == Verdict(p, waits, before)
  {
    CountLater(waits, before, after);
  }

  /** A join with no pending branch is decided: it succeeds exactly when enough branches did. */
  lemma VerdictFinal(p: Policy, waits: seq<string>, branches: Statuses)
    requires AllSettled(waits, branches)
    ensures Verdict(p, waits, branches) == Some(Reached(p, waits, branches))
  {
    NonePending(waits, branches);
  }

  /** branches with every pending one settled as st. */
  function Rest(waits: seq<string>, branches: Statuses, st: BranchStatus): Statuses {
    map w | w in branches.Keys + (set w | w in waits) ::
      if Get(branches, w, Pending).Pending? then st else branches[w]
  }

  lemma {:induction false} CountRest(waits: seq<string>, all: seq<string>, branches: Statuses)
    requires forall w | w in waits :: w in all
    ensures Count(waits, Rest(all, branches, Succeeded), Succeeded)
         == Count(waits, branches, Succeeded) + Count(waits, branches, Pending)
    ensures Count(waits, Rest(all, branches, Failed), Succeeded) == Count(waits, branches, Succeeded)
    decreases |waits|
  {
    if |waits| > 0 {
      var last := |waits| - 1;
      assert waits[last] in all;
      CountRest(waits[..last], all, branches);
    }
  }

  /** A join other than a min join closes at the first moment the rest cannot change its verdict: it is
      decided as ok exactly when every way the pending branches may settle gives ok. */
  lemma DecidedIff(p: Policy, waits: seq<string>, branches: Statuses, ok: bool)
    requires !p.JoinMin?
    ensures Verdict(p, waits, branches) == Some(ok)
       <==> forall fin | Later(waits, branches, fin) && AllSettled(waits, fin) :: Reached(p, waits, fin) == ok
  {
    if Verdict(p, waits, branches) == Some(ok) {
      forall fin | Later(waits, branches, fin) && AllSettled(waits, fin) ensures Reached(p, waits, fin) == ok {
        VerdictStable(p, waits, branches, fin);
        VerdictFinal(p, waits, fin);
      }
    } else {
      var won, lost := Rest(waits, branches, Succeeded), Rest(waits, branches, Failed);
      CountRest(waits, waits, branches);
      assert Later(waits, branches, won) && AllSettled(waits, won);
      assert Later(waits, branches, lost) && AllSettled(waits, lost);
    }
  }

  /** A min join closes only once no branch is pending, and then it does. */
  lemma MinDecidedIff(p: Policy, waits: seq<string>, branches: Statuses)
    requires p.JoinMin?
    ensures Verdict(p, waits, branches).Some? <==> AllSettled(waits, branches)
  {
    NonePending(waits, branches);
  }

  /** The statuses of a fan-out as its branches settle one after another, each at most once. */
  predicate SettlesAlong(waits: seq<string>, run: seq<Statuses>) {
    forall i :: 0 < i < |run| ==> Later(waits, run[i - 1], run[i])
  }

  lemma {:induction false} LaterAlong(waits: seq<string>, run: seq<Statuses>, i: nat, j: nat)
    requires SettlesAlong(waits, run) && i <= j < |run|
    ensures Later(waits, run[i], run[j])
    decreases j
  {
    if i < j {
      LaterAlong(waits, run, i, j - 1);
    }
  }

  /** The verdict does not depend on the order of settlement: however the branches reach their final outcomes, the
      join closes on the way, and whenever it does its verdict is that of the final outcomes. */
  lemma OrderIndependent(p: Policy, waits: seq<string>, run: seq<Statuses>, i: nat)
    requires SettlesAlong(waits, run) && i < |run| && AllSettled(waits, run[|run| - 1])
    ensures Verdict(p, waits, run[i]).Some? ==> Verdict(p, waits, run[i]) == Some(Reached(p, waits, run[|run| - 1]))
    ensures Verdict(p, waits, run[|run| - 1]).Some?
  {
    LaterAlong(waits, run, i, |run| - 1);
    VerdictFinal(p, waits, run[|run| - 1]);
    if Verdict(p, waits, run[i]).Some? {
      VerdictStable(p, waits, run[i], run[|run| - 1]);
    }
  }

  /** Dropping pending branches changes neither the verdict nor which branches succeeded. */
  lemma {:induction false} ThoseLater(waits: seq<string>, before: Statuses, after: Statuses)
    requires forall w | w in waits ::
               Get(after, w, Pending) == Get(before, w, Pending)
               || (Get(before, w, Pending).Pending? && Get(after, w, Pending).Dropped?)
    ensures Those(waits, after, Succeeded) == Those(waits, before, Succeeded)
    decreases |waits|
  {
    if |waits| > 0 {
      var last := |waits| - 1;
      assert waits[last] in waits;
      ThoseLater(waits[..last], before, after);
    }
  }
}
