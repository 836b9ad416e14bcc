/** What a run conserves: usage, signals and children are accounted for exactly once. */
module Ledgers {
  import opened Values
  import opened Flows
  import opened Fold
  import opened Invariants
  import opened Guards
  import opened Runs

  /** The data part after an event that does not replace it. */
  lemma WorkData(f: Flow, s: State, b: Body, time: int)
    requires !b.OfLife?
    ensures After(f, s, b, time).data == DataStep(f, s.data, s.ctl, b, time)
  {
    hide ControlStep, DataStep;
  }

  lemma LifeKeeps(f: Flow, s: State, e: LifeEvent, time: int)
    requires Guard(f, s, OfLife(e)) && (e.Forked? ==> s == e.state)
    ensures var d := After(f, s, OfLife(e), time).data;
            d.counters == s.data.counters && d.buffered == s.data.buffered
    ensures !e.Forked? ==> After(f, s, OfLife(e), time).exec == s.exec
  {
    hide Boundary, EnterGuard, FlowOutput;
  }

  // ---- Usage ----

  /** The usage an event reports: that of an attempt that ended, or of a child. */
  function UsageOf(b: Body): map<string, real> {
    match b
    case OfNode(e) => if e.NodeDone? || e.NodeFail? || e.Interrupted? then e.usage else map[]
    case OfWait(e) => if e.ChildDone? then e.counters else map[]
    case _ => map[]
  }

  /** All the usage of counter k reported in a history. */
  function Used(evs: seq<Event>, k: string): real {
    if |evs| == 0 then 0.0 else Used(evs[..|evs| - 1], k) + Get(UsageOf(evs[|evs| - 1].body), k, 0.0)
  }

  lemma NodeCounts(f: Flow, s: State, e: NodeEvent, time: int, k: string)
    requires NodeGuard(f, s, e)
    ensures Get(NodeData(f, s.data, s.ctl, e, time).counters, k, 0.0)
         == Get(s.data.counters, k, 0.0) + Get(UsageOf(OfNode(e)), k, 0.0)
  {
    hide Declared, ChoiceGuard, InBudget, ScheduleGuard, ItemInRange, Written;
  }

  lemma WaitCounts(d: Data, c: Control, e: WaitEvent, time: int, k: string)
    ensures Get(WaitData(d, c, e, time).counters, k, 0.0) == Get(d.counters, k, 0.0) + Get(UsageOf(OfWait(e)), k, 0.0)
  {
  }

  lemma StepCounts(f: Flow, s: State, b: Body, time: int, k: string)
    requires Guard(f, s, b) && (b.OfLife? && b.life.Forked? ==> s == b.life.state)
    ensures Get(After(f, s, b, time).data.counters, k, 0.0) == Get(s.data.counters, k, 0.0) + Get(UsageOf(b), k, 0.0)
  {
    hide NodeGuard, GraphGuard, WaitGuard, LifeGuard, After, NodeData, WaitData;
    match b {
      case OfLife(e) => LifeKeeps(f, s, e, time);
      case OfNode(e) => WorkData(f, s, b, time); NodeCounts(f, s, e, time, k);
      case OfGraph(e) => WorkData(f, s, b, time);
      case OfWait(e) => WorkData(f, s, b, time); WaitCounts(s.data, s.ctl, e, time, k);
    }
  }

  /** Every counter is what it was at the start plus all the usage reported since, in a fork also by its source. */
  lemma {:induction false} CountersConserved(f: Flow, s0: State, evs: seq<Event>, k: string)
    requires Legal(f, s0, evs) && Lineal(f, s0, evs)
    ensures FoldAll(f, s0, evs).Some?
    ensures Get(FoldAll(f, s0, evs).value.data.counters, k, 0.0) == Get(s0.data.counters, k, 0.0) + Used(evs, k)
    decreases |evs|
  {
    hide Guard, Follows, After, Legal;
    LegalFolds(f, s0, evs);
    if |evs| > 0 {
      var n := |evs| - 1;
      LegalPrefix(f, s0, evs, n);
      LinealBefore(f, s0, evs, n);
      CountersConserved(f, s0, evs[..n], k);
      LegalStep(f, s0, evs, n);
      assert evs[..n + 1] == evs;
      hide FoldAll;
      StepCounts(f, At(f, s0, evs, n), evs[n].body, evs[n].time, k);
    }
  }

  // ---- Signals ----

  /** The signals of the given name, in order. */
  function Named(s: seq<Signal>, name: string): seq<Signal> {
    if |s| == 0 then []
    else Named(s[..|s| - 1], name) + (if s[|s| - 1].name == name then [s[|s| - 1]] else [])
  }

  lemma {:induction false} NamedConcat(a: seq<Signal>, b: seq<Signal>, name: string)
    ensures Named(a + b, name) == Named(a, name) + Named(b, name)
    decreases |b|
  {
    if |b| == 0 {
      assert a + b == a;
    } else {
      assert (a + b)[..|a + b| - 1] == a + b[..|b| - 1];
      NamedConcat(a, b[..|b| - 1], name);
    }
  }

  lemma {:induction false} NamedNone(s: seq<Signal>, name: string)
    requires forall i :: 0 <= i < |s| ==> s[i].name != name
    ensures Named(s, name) == []
    decreases |s|
  {
    if |s| > 0 { NamedNone(s[..|s| - 1], name); }
  }

  /** The signals of the given name that arrived during a history. */
  function Received(evs: seq<Event>, name: string): seq<Signal> {
    if |evs| == 0 then [] else Received(evs[..|evs| - 1], name) + Arrived(evs[|evs| - 1].body, name)
  }

  function Arrived(b: Body, name: string): seq<Signal> {
    if b.OfWait? && b.wait.SignalReceived? && b.wait.name == name then [Signal(name, b.wait.id, b.wait.payload)] else []
  }

  /** The signals that consuming events of the given name took from the buffer. */
  function Taken(f: Flow, s0: State, evs: seq<Event>, name: string): seq<Signal> {
    if |evs| == 0 then []
    else
      var p := evs[..|evs| - 1];
      Taken(f, s0, p, name) + (if FoldAll(f, s0, p).None? then [] else TakenBy(FoldAll(f, s0, p).value.data, evs[|evs| - 1].body, name))
  }

  function TakenBy(d: Data, b: Body, name: string): seq<Signal> {
    if b.OfWait? && b.wait.SignalConsumed? && b.wait.name == name && FirstId(d.buffered, b.wait.id) < |d.buffered| then
      [d.buffered[FirstId(d.buffered, b.wait.id)]]
    else []
  }

  // ---- When consuming takes the right signal ----

  /** Event b, if it consumes a signal, finds no earlier one under the same id: it takes the one it names. */
  predicate NoneAhead(d: Data, b: Body) {
    b.OfWait? && b.wait.SignalConsumed? ==>
      forall j :: 0 <= j < FirstNamed(d.buffered, b.wait.name) ==> d.buffered[j].id != b.wait.id
  }

  predicate NoneAheadAt(f: Flow, s0: State, evs: seq<Event>, i: nat)
    requires i < |evs|
  {
    FoldAll(f, s0, evs[..i]).Some? ==> NoneAhead(At(f, s0, evs, i).data, evs[i].body)
  }

  /** Whenever a signal is consumed, no earlier signal under its id is still buffered. */
  predicate Straight(f: Flow, s0: State, evs: seq<Event>) {
    forall i :: 0 <= i < |evs| ==> NoneAheadAt(f, s0, evs, i)
  }

  /** What was buffered and what arrived under a name is what was taken, in the same order, followed by what is still
      buffered. */
  predicate Conserved(f: Flow, s0: State, evs: seq<Event>, name: string) {
    && FoldAll(f, s0, evs).Some?
    && Named(s0.data.buffered, name) + Received(evs, name)
       == Taken(f, s0, evs, name) + Named(FoldAll(f, s0, evs).value.data.buffered, name)
  }

  /** A consuming event takes the oldest buffered signal of the await's name exactly when no signal of another name that
      arrived earlier, under the same id, is still buffered. */
  lemma TakesOldestIff(f: Flow, s: State, e: WaitEvent)
    requires WaitGuard(f, s, e) && e.SignalConsumed?
    ensures FirstId(s.data.buffered, e.id) == FirstNamed(s.data.buffered, e.name) <==> NoneAhead(s.data, OfWait(e))
  {
    var i := FirstNamed(s.data.buffered, e.name);
    var j := FirstId(s.data.buffered, e.id);
    assert j <= i;
  }

  lemma TakeNamed(s: seq<Signal>, i: nat, name: string)
    requires i < |s|
    ensures Named(s, name) == Named(s[..i], name) + (if s[i].name == name then [s[i]] else []) + Named(s[i + 1..], name)
    ensures Named(s[..i] + s[i + 1..], name) == Named(s[..i], name) + Named(s[i + 1..], name)
  {
    assert s == s[..i] + [s[i]] + s[i + 1..];
    NamedConcat(s[..i] + [s[i]], s[i + 1..], name);
    NamedConcat(s[..i], [s[i]], name);
    assert Named([s[i]], name) == Named([], name) + (if s[i].name == name then [s[i]] else []);
    NamedConcat(s[..i], s[i + 1..], name);
  }

  lemma BufferedMore(buf: seq<Signal>, x: Signal, name: string)
    ensures Named(buf + [x], name) == Named(buf, name) + (if x.name == name then [x] else [])
  {
    assert (buf + [x])[..|buf|] == buf;
  }

  lemma BufferedLess(buf: seq<Signal>, i: nat, name: string)
    requires i < |buf| && forall j :: 0 <= j < i ==> buf[j].name != buf[i].name
    ensures Named(buf, name) == (if buf[i].name == name then [buf[i]] else []) + Named(buf[..i] + buf[i + 1..], name)
  {
    hide Named;
    TakeNamed(buf, i, name);
    if buf[i].name == name { NamedNone(buf[..i], name); }
  }

  /** What an event does to the buffered signals of a name. */
  lemma WaitSignals(f: Flow, s: State, e: WaitEvent, time: int, name: string)
    requires WaitGuard(f, s, e) && NoneAhead(s.data, OfWait(e))
    ensures Named(s.data.buffered, name) + Arrived(OfWait(e), name)
         == TakenBy(s.data, OfWait(e), name) + Named(WaitData(s.data, s.ctl, e, time).buffered, name)
  {
    hide ChildGuard, InBudget, ItemInRange, Free, Named, NoneAhead, AddUsage, IsItem;
    if e.SignalReceived? {
      BufferedMore(s.data.buffered, Signal(e.name, e.id, e.payload), name);
    } else if e.SignalConsumed? {
      TakesOldestIff(f, s, e);
      BufferedLess(s.data.buffered, FirstNamed(s.data.buffered, e.name), name);
    }
  }

  lemma NodeKeepsBuffer(f: Flow, d: Data, c: Control, e: NodeEvent, time: int)
    ensures NodeData(f, d, c, e, time).buffered == d.buffered
  {
    hide Written, AddUsage, IsItem;
  }

  lemma GraphKeepsBuffer(d: Data, c: Control, e: GraphEvent)
    ensures GraphData(d, c, e).buffered == d.buffered
  {
    hide JoinedBranches;
  }

  lemma StepSignals(f: Flow, s: State, b: Body, time: int, name: string)
    requires Guard(f, s, b) && (b.OfLife? && b.life.Forked? ==> s == b.life.state) && NoneAhead(s.data, b)
    ensures Named(s.data.buffered, name) + Arrived(b, name)
         == TakenBy(s.data, b, name) + Named(After(f, s, b, time).data.buffered, name)
  {
    hide NodeGuard, GraphGuard, WaitGuard, LifeGuard, After, NodeData, GraphData, WaitData, Named, NoneAhead;
    match b {
      case OfLife(e) => LifeKeeps(f, s, e, time);
      case OfNode(e) => WorkData(f, s, b, time); NodeKeepsBuffer(f, s.data, s.ctl, e, time);
      case OfGraph(e) => WorkData(f, s, b, time); GraphKeepsBuffer(s.data, s.ctl, e);
      case OfWait(e) => WorkData(f, s, b, time); WaitSignals(f, s, e, time, name);
    }
  }

  lemma StraightBefore(f: Flow, s0: State, evs: seq<Event>, n: nat)
    requires Straight(f, s0, evs) && n <= |evs|
    ensures Straight(f, s0, evs[..n])
  {
    hide FoldAll, NoneAhead;
    forall i | 0 <= i < n ensures NoneAheadAt(f, s0, evs[..n], i) {
      assert evs[..n][..i] == evs[..i] && NoneAheadAt(f, s0, evs, i);
    }
  }

  lemma {:induction false} StraightConserves(f: Flow, s0: State, evs: seq<Event>, name: string)
    requires Legal(f, s0, evs) && Lineal(f, s0, evs) && Straight(f, s0, evs)
    ensures Conserved(f, s0, evs, name)
    decreases |evs|
  {
    hide Legal, Lineal, Straight, NoneAheadAt;
    if |evs| > 0 {
      hide Conserved;
      var n := |evs| - 1;
      LegalPrefix(f, s0, evs, n);
      StraightBefore(f, s0, evs, n);
      LinealBefore(f, s0, evs, n);
      StraightConserves(f, s0, evs[..n], name);
      StraightAt(f, s0, evs, n);
      OneConserved(f, s0, evs, name);
    }
  }

  lemma OneConserved(f: Flow, s0: State, evs: seq<Event>, name: string)
    requires Legal(f, s0, evs) && Lineal(f, s0, evs) && evs != [] && NoneAheadAt(f, s0, evs, |evs| - 1)
    requires Conserved(f, s0, evs[..|evs| - 1], name)
    ensures Conserved(f, s0, evs, name)
  {
    hide Guard, Follows, After, Legal, Named, TakenBy, Arrived, NoneAhead, FoldAll;
    var n := |evs| - 1;
    LegalStep(f, s0, evs, n);
    assert evs[..n + 1] == evs;
    var s := At(f, s0, evs, n);
    StepSignals(f, s, evs[n].body, evs[n].time, name);
    Chain(Named(s0.data.buffered, name), Received(evs[..n], name), Taken(f, s0, evs[..n], name), Named(s.data.buffered, name),
          Arrived(evs[n].body, name), TakenBy(s.data, evs[n].body, name),
          Named(At(f, s0, evs, n + 1).data.buffered, name));
  }

  lemma StraightAt(f: Flow, s0: State, evs: seq<Event>, n: nat)
    requires Straight(f, s0, evs) && n < |evs|
    ensures NoneAheadAt(f, s0, evs, n)
  {
  }

  /** Every signal of s has the name. */
  predicate AllNamed(s: seq<Signal>, name: string) { forall i :: 0 <= i < |s| ==> s[i].name == name }

  lemma {:induction false} NamedAre(s: seq<Signal>, name: string)
    ensures AllNamed(Named(s, name), name)
    decreases |s|
  {
    if |s| > 0 { NamedAre(s[..|s| - 1], name); }
  }

  lemma {:induction false} ReceivedAre(evs: seq<Event>, name: string)
    ensures AllNamed(Received(evs, name), name)
    decreases |evs|
  {
    if |evs| > 0 { ReceivedAre(evs[..|evs| - 1], name); }
  }

  /** If all that was ever taken under a name has it, so has what event i took. */
  lemma {:induction false} TakenThen(f: Flow, s0: State, evs: seq<Event>, name: string, i: nat)
    requires i < |evs| && FoldAll(f, s0, evs[..i]).Some? && AllNamed(Taken(f, s0, evs, name), name)
    ensures AllNamed(TakenBy(At(f, s0, evs, i).data, evs[i].body, name), name)
    decreases |evs|
  {
    hide FoldAll, TakenBy;
    var n := |evs| - 1;
    var t := Taken(f, s0, evs[..n], name);
    assert Taken(f, s0, evs, name)[..|t|] == t;
    if i < n {
      assert AllNamed(t, name) by { forall k | 0 <= k < |t| ensures t[k].name == name { assert Taken(f, s0, evs, name)[k] == t[k]; } }
      assert evs[..n][..i] == evs[..i];
      TakenThen(f, s0, evs[..n], name, i);
    } else {
      var x := TakenBy(At(f, s0, evs, i).data, evs[i].body, name);
      assert Taken(f, s0, evs, name) == t + x;
      forall k | 0 <= k < |x| ensures x[k].name == name { assert Taken(f, s0, evs, name)[|t| + k] == x[k]; }
    }
  }

  lemma ConservedTakes(f: Flow, s0: State, evs: seq<Event>, name: string)
    requires Conserved(f, s0, evs, name)
    ensures AllNamed(Taken(f, s0, evs, name), name)
  {
    hide FoldAll, Named, Received, Taken;
    NamedAre(s0.data.buffered, name);
    ReceivedAre(evs, name);
    var whole := Named(s0.data.buffered, name) + Received(evs, name);
    assert AllNamed(whole, name);
    var t := Taken(f, s0, evs, name);
    forall k | 0 <= k < |t| ensures t[k].name == name { assert whole[k] == t[k]; }
  }

  lemma ConservedIsStraight(f: Flow, s0: State, evs: seq<Event>, i: nat)
    requires Legal(f, s0, evs) && i < |evs| && forall name :: Conserved(f, s0, evs, name)
    ensures NoneAheadAt(f, s0, evs, i)
  {
    hide Legal, FoldAll, Conserved, Follows, After, Timely, Taken, NodeGuard, GraphGuard, LifeGuard, ChildGuard, ChildInput,
         ItemInRange, InBudget, Free;
    LegalStep(f, s0, evs, i);
    var b := evs[i].body;
    if b.OfWait? && b.wait.SignalConsumed? {
      ConservedTakes(f, s0, evs, b.wait.name);
      TakenThen(f, s0, evs, b.wait.name, i);
      var d := At(f, s0, evs, i).data;
      assert TakenBy(d, b, b.wait.name)[0].name == b.wait.name;
    }
  }

  /** Signals are neither lost nor used twice and each name is consumed in the order of arrival, if and only if no signal
      is ever consumed while an earlier one under the same id is still buffered. */
  lemma SignalsConserved(f: Flow, s0: State, evs: seq<Event>)
    requires Legal(f, s0, evs) && Lineal(f, s0, evs)
    ensures (forall name :: Conserved(f, s0, evs, name)) <==> Straight(f, s0, evs)
  {
    hide Legal, Lineal, Conserved, NoneAhead, NoneAheadAt;
    if Straight(f, s0, evs) {
      forall name ensures Conserved(f, s0, evs, name) { StraightConserves(f, s0, evs, name); }
    } else if forall name :: Conserved(f, s0, evs, name) {
      forall i | 0 <= i < |evs| ensures NoneAheadAt(f, s0, evs, i) { ConservedIsStraight(f, s0, evs, i); }
    }
  }

  lemma Chain<T>(start: seq<T>, arrived: seq<T>, taken: seq<T>, mid: seq<T>, more: seq<T>, took: seq<T>, end: seq<T>)
    requires start + arrived == taken + mid && mid + more == took + end
    ensures start + (arrived + more) == (taken + took) + end
  {
    assert start + (arrived + more) == (start + arrived) + more;
    assert (taken + mid) + more == taken + (mid + more);
    assert taken + (took + end) == (taken + took) + end;
  }

  // ---- Ids not used again ----

  /** No two buffered signals have the same id. */
  predicate DistinctIds(s: seq<Signal>) { forall i, j :: 0 <= i < j < |s| ==> s[i].id != s[j].id }

  predicate HasId(s: seq<Signal>, id: string) { exists i :: 0 <= i < |s| && s[i].id == id }

  /** No signal arrives under the id of one that is still buffered. */
  predicate NoReuse(f: Flow, s0: State, evs: seq<Event>) {
    forall i :: 0 <= i < |evs| && evs[i].body.OfWait? && evs[i].body.wait.SignalReceived? ==>
      FoldAll(f, s0, evs[..i]).Some? ==> !HasId(FoldAll(f, s0, evs[..i]).value.data.buffered, evs[i].body.wait.id)
  }

  lemma DistinctLess(buf: seq<Signal>, i: nat)
    requires DistinctIds(buf) && i < |buf|
    ensures DistinctIds(buf[..i] + buf[i + 1..])
  {
    var rest := buf[..i] + buf[i + 1..];
    forall j, k | 0 <= j < k < |rest| ensures rest[j].id != rest[k].id {
      var j', k' := Shifted(j, i), Shifted(k, i);
      assert 0 <= j' < k' < |buf| && rest[j] == buf[j'] && rest[k] == buf[k'];
    }
  }

  /** Where an element at position j stood before position i was removed. */
  function Shifted(j: nat, i: nat): nat { if j < i then j else j + 1 }

  lemma StepDistinct(f: Flow, s: State, b: Body, time: int)
    requires Guard(f, s, b) && (b.OfLife? && b.life.Forked? ==> s == b.life.state) && DistinctIds(s.data.buffered)
    requires b.OfWait? && b.wait.SignalReceived? ==> !HasId(s.data.buffered, b.wait.id)
    ensures DistinctIds(After(f, s, b, time).data.buffered)
  {
    hide NodeGuard, GraphGuard, WaitGuard, LifeGuard, After, NodeData, GraphData, DistinctIds, AddUsage, IsItem;
    match b {
      case OfLife(e) => LifeKeeps(f, s, e, time);
      case OfNode(e) => WorkData(f, s, b, time); NodeKeepsBuffer(f, s.data, s.ctl, e, time);
      case OfGraph(e) => WorkData(f, s, b, time); GraphKeepsBuffer(s.data, s.ctl, e);
      case OfWait(e) =>
        WorkData(f, s, b, time);
        var i := if e.SignalConsumed? then FirstId(s.data.buffered, e.id) else |s.data.buffered|;
        if i < |s.data.buffered| { DistinctLess(s.data.buffered, i); }
        if e.SignalReceived? { DistinctMore(s.data.buffered, Signal(e.name, e.id, e.payload)); }
    }
  }

  lemma DistinctMore(buf: seq<Signal>, x: Signal)
    requires DistinctIds(buf) && !HasId(buf, x.id)
    ensures DistinctIds(buf + [x])
  {
  }

  lemma {:induction false} StaysDistinct(f: Flow, s0: State, evs: seq<Event>, n: nat)
    requires Legal(f, s0, evs) && Lineal(f, s0, evs) && NoReuse(f, s0, evs) && DistinctIds(s0.data.buffered) && n <= |evs|
    ensures FoldAll(f, s0, evs[..n]).Some? && DistinctIds(At(f, s0, evs, n).data.buffered)
    decreases n
  {
    hide Guard, Follows, After, Legal, HasId, DistinctIds;
    if n == 0 {
      assert evs[..0] == [];
    } else {
      hide FoldAll;
      StaysDistinct(f, s0, evs, n - 1);
      LegalStep(f, s0, evs, n - 1);
      StepDistinct(f, At(f, s0, evs, n - 1), evs[n - 1].body, evs[n - 1].time);
    }
  }

  /** Ids that are not used again while their signal is buffered are enough. */
  lemma FreshIdsSuffice(f: Flow, s0: State, evs: seq<Event>)
    requires Legal(f, s0, evs) && Lineal(f, s0, evs) && NoReuse(f, s0, evs) && DistinctIds(s0.data.buffered)
    ensures Straight(f, s0, evs)
  {
    hide Legal, FoldAll, Lineal, NoReuse, Follows, After, Timely, NodeGuard, GraphGuard, LifeGuard, ChildGuard, ChildInput,
         ItemInRange, InBudget, Free;
    forall i | 0 <= i < |evs| ensures NoneAheadAt(f, s0, evs, i) {
      StaysDistinct(f, s0, evs, i);
      LegalStep(f, s0, evs, i);
    }
  }
}
