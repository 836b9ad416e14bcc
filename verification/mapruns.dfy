/** Map runs: every item completes once, and the result of a map lists the output of each item in its place. */
module MapRuns {
  import opened Values
  import opened Flows
  import opened Fold
  import opened Invariants
  import opened Guards
  import opened Outcomes
  import opened Runs
  import opened Ledgers

  /** The outputs of the items of map m that completed since it last started, by index. */
  function Outputs(evs: seq<Event>, m: string): map<nat, Json> {
    if |evs| == 0 then map[] else OutputsAfter(Outputs(evs[..|evs| - 1], m), evs[|evs| - 1].body, m)
  }

  function OutputsAfter(outs: map<nat, Json>, b: Body, m: string): map<nat, Json> {
    if b.OfGraph? && b.graph.MapStarted? && b.graph.node == m then map[]
    else if ItemOf(b).Some? && ItemOf(b).value.node == m then outs[ItemOf(b).value.index := OutputOf(b)]
    else outs
  }

  /** The item an event completes, if it completes one. */
  function ItemOf(b: Body): (k: Option<Key>)
    ensures k.Some? ==> k.value.Item?
  {
    match b
    case OfNode(e) => if e.NodeDone? && e.key.Item? then Some(e.key) else None
    case OfWait(e) => if e.ChildDone? && e.ok && e.key.Item? then Some(e.key) else None
    case _ => None
  }

  function OutputOf(b: Body): Json
    requires ItemOf(b).Some?
  {
    if b.OfNode? then b.work.output else b.wait.output
  }

  // ---- What is open belongs to an open map ----

  /** Instance k is an item of an open map that was started, or is no item at all. */
  predicate Placed(c: Control, k: Key, node: string, owner: string, index: nat) {
    if k.Item? then
      k.node in c.maps && node == k.node && owner == k.node && index == k.index && index < c.maps[k.node].next
    else !IsItem(c, owner, node)
  }

  predicate TaskPlaced(c: Control, k: Key)
    requires k in c.tasks
  {
    Placed(c, k, c.tasks[k].node, c.tasks[k].owner, c.tasks[k].index)
  }

  predicate ChildPlaced(c: Control, k: Key)
    requires k in c.children
  {
    Placed(c, k, c.children[k].node, c.children[k].owner, c.children[k].index)
  }

  predicate AllPlaced(c: Control) {
    && (forall k | k in c.tasks :: TaskPlaced(c, k))
    && (forall k | k in c.children :: ChildPlaced(c, k))
    && (forall k | k in c.tasks && k.Item? :: k !in c.children)
  }

  predicate ItemOpen(c: Control, m: string, i: nat) { Item(m, i) in c.tasks || Item(m, i) in c.children }

  /** The open map m holds the outputs of exactly the completed items, none of which is open. */
  predicate Tracks(c: Control, m: string, outs: map<nat, Json>) {
    m in c.maps ==>
      && |c.maps[m].outputs| == |c.maps[m].items| && c.maps[m].next <= |c.maps[m].items|
      && c.maps[m].done == |outs|
      && (forall i | i in outs :: i < c.maps[m].next && c.maps[m].outputs[i] == outs[i] && !ItemOpen(c, m, i))
  }

  // ---- One event ----

  lemma ScheduledPlaced(f: Flow, c: Control, e: NodeEvent)
    requires e.Scheduled? && ScheduleGuard(f, c, e) && AllPlaced(c)
    ensures AllPlaced(NodeControl(c, e))
  {
    hide MaxAttempts;
    var c' := NodeControl(c, e);
    forall k | k in c'.tasks ensures TaskPlaced(c', k) {
      if k != e.key { assert TaskPlaced(c, k); }
    }
    forall k | k in c'.children ensures ChildPlaced(c', k) { assert ChildPlaced(c, k); }
    if e.key in c.tasks { assert TaskPlaced(c, e.key); }
  }

  /** Instance k starts: a new item of map m is the next one. */
  lemma StartTracks(c: Control, c': Control, k: Key, m: string, outs: map<nat, Json>)
    requires Tracks(c, m, outs) && (m in c.maps <==> m in c'.maps)
    requires forall i :: ItemOpen(c', m, i) ==> ItemOpen(c, m, i) || k == Item(m, i)
    requires k.Item? && k.node == m && !ItemOpen(c, m, k.index) ==> m in c.maps && k.index == c.maps[m].next
    requires m in c.maps ==>
               && c'.maps[m].outputs == c.maps[m].outputs && c'.maps[m].items == c.maps[m].items
               && c'.maps[m].done == c.maps[m].done && c.maps[m].next <= c'.maps[m].next <= |c.maps[m].items|
    ensures Tracks(c', m, outs)
  {
    hide ItemOpen;
  }

  /** Instance k is gone; the output of a completed item of map m is recorded. */
  lemma GoneTracks(c: Control, c': Control, k: Key, m: string, outs: map<nat, Json>, output: Option<Json>)
    requires Tracks(c, m, outs) && (k.Item? && k.node == m ==> ItemOpen(c, m, k.index) && m in c.maps && k.index < c.maps[m].next)
    requires forall i :: ItemOpen(c', m, i) ==> ItemOpen(c, m, i) && k != Item(m, i)
    requires c'.maps == (if output.Some? && k.Item? && k.node in c.maps then ItemDone(c, k.node, k.index, output.value) else c.maps)
    ensures Tracks(c', m, if output.Some? && k.Item? && k.node == m then outs[k.index := output.value] else outs)
  {
    hide ItemOpen;
    if output.Some? && k.Item? && k.node == m {
      assert k.index !in outs;
      assert |outs[k.index := output.value]| == |outs| + 1;
    }
  }

  lemma GonePlaced(c: Control, c': Control)
    requires AllPlaced(c) && c'.maps.Keys == c.maps.Keys && (forall x | x in c.maps :: c'.maps[x].next == c.maps[x].next)
    requires forall k | k in c'.tasks :: k in c.tasks && c'.tasks[k] == c.tasks[k]
    requires forall k | k in c'.children :: k in c.children && c'.children[k] == c.children[k]
    ensures AllPlaced(c')
  {
    forall k | k in c'.tasks ensures TaskPlaced(c', k) { assert TaskPlaced(c, k); }
    forall k | k in c'.children ensures ChildPlaced(c', k) { assert ChildPlaced(c, k); }
  }

  lemma DoneKeeps(c: Control, owner: string, index: nat, output: Json)
    requires owner in c.maps
    ensures var maps := ItemDone(c, owner, index, output);
            maps.Keys == c.maps.Keys && forall x | x in c.maps :: maps[x].next == c.maps[x].next
  {
  }

  /** An event that changes neither what is open nor the maps. */
  lemma Untouched(c: Control, c': Control, m: string, outs: map<nat, Json>)
    requires AllPlaced(c) && Tracks(c, m, outs) && c'.maps == c.maps && c'.children == c.children
    requires c'.tasks.Keys == c.tasks.Keys
    requires forall k | k in c.tasks :: c'.tasks[k].node == c.tasks[k].node && c'.tasks[k].owner == c.tasks[k].owner
                                        && c'.tasks[k].index == c.tasks[k].index
    ensures AllPlaced(c') && Tracks(c', m, outs)
  {
    forall k | k in c'.tasks ensures TaskPlaced(c', k) { assert TaskPlaced(c, k); }
    forall k | k in c'.children ensures ChildPlaced(c', k) { assert ChildPlaced(c, k); }
    forall i ensures ItemOpen(c', m, i) == ItemOpen(c, m, i) {}
  }

  lemma PlacedTask(c: Control, k: Key)
    requires AllPlaced(c) && k in c.tasks
    ensures k.Item? <==> IsItem(c, c.tasks[k].owner, c.tasks[k].node)
    ensures k.Item? ==> && c.tasks[k].owner == k.node && c.tasks[k].index == k.index && k !in c.children
                        && k.node in c.maps && k.index < c.maps[k.node].next && ItemOpen(c, k.node, k.index)
  {
    assert TaskPlaced(c, k);
  }

  lemma PlacedChild(c: Control, k: Key)
    requires AllPlaced(c) && k in c.children
    ensures k.Item? <==> IsItem(c, c.children[k].owner, c.children[k].node)
    ensures k.Item? ==> && c.children[k].owner == k.node && c.children[k].index == k.index && k !in c.tasks
                        && k.node in c.maps && k.index < c.maps[k.node].next && ItemOpen(c, k.node, k.index)
  {
    assert ChildPlaced(c, k);
  }

  lemma TaskEnds(c: Control, e: NodeEvent, m: string, outs: map<nat, Json>)
    requires AllPlaced(c) && Tracks(c, m, outs)
    requires (e.NodeDone? || e.NodeCancel? || (e.NodeFail? && !e.willRetry)) && e.key in c.tasks
    ensures AllPlaced(NodeControl(c, e)) && Tracks(NodeControl(c, e), m, OutputsAfter(outs, OfNode(e), m))
  {
    hide AllPlaced, Tracks, Marked, ItemDone;
    var c' := NodeControl(c, e);
    PlacedTask(c, e.key);
    if e.NodeDone? && e.key.Item? { DoneKeeps(c, e.key.node, e.key.index, e.output); }
    GonePlaced(c, c');
    GoneTracks(c, c', e.key, m, outs, if e.NodeDone? then Some(e.output) else None);
  }

  lemma TaskStarts(f: Flow, c: Control, e: NodeEvent, m: string, outs: map<nat, Json>)
    requires e.Scheduled? && ScheduleGuard(f, c, e) && AllPlaced(c) && Tracks(c, m, outs)
    ensures AllPlaced(NodeControl(c, e)) && Tracks(NodeControl(c, e), m, outs)
  {
    ScheduledPlaced(f, c, e);
    if e.key in c.tasks { PlacedTask(c, e.key); }
    hide AllPlaced;
    StartTracks(c, NodeControl(c, e), e.key, m, outs);
  }

  lemma NodeTracks(f: Flow, s: State, e: NodeEvent, m: string, outs: map<nat, Json>)
    requires NodeGuard(f, s, e) && AllPlaced(s.ctl) && Tracks(s.ctl, m, outs)
    ensures AllPlaced(NodeControl(s.ctl, e)) && Tracks(NodeControl(s.ctl, e), m, OutputsAfter(outs, OfNode(e), m))
  {
    hide AllPlaced, Tracks, Declared, ChoiceGuard, InBudget, ScheduleGuard, Marked, ItemDone, ItemStarted, Settled;
    if e.Scheduled? {
      TaskStarts(f, s.ctl, e, m, outs);
    } else if e.NodeDone? || e.NodeCancel? || (e.NodeFail? && !e.willRetry) {
      TaskEnds(s.ctl, e, m, outs);
    } else {
      Untouched(s.ctl, NodeControl(s.ctl, e), m, outs);
    }
  }

  lemma GraphTracks(f: Flow, s: State, e: GraphEvent, m: string, outs: map<nat, Json>)
    requires GraphGuard(f, s, e) && AllPlaced(s.ctl) && Tracks(s.ctl, m, outs)
    ensures AllPlaced(GraphControl(s.ctl, e)) && Tracks(GraphControl(s.ctl, e), m, OutputsAfter(outs, OfGraph(e), m))
  {
    hide JoinGuard, JoinOutput, MapItems, OwnChildren, OwnedCancellable, AllPlaced, Tracks;
    var c, c' := s.ctl, GraphControl(s.ctl, e);
    if e.MapStarted? {
      MapBegins(c, c', m, outs, e.node);
    } else if e.MapCompleted? || e.MapAborted? {
      MapEnds(c, c', e.node);
      Fewer(c, c', m, outs);
    } else {
      GonePlaced(c, c');
      Fewer(c, c', m, outs);
    }
  }

  lemma MapBegins(c: Control, c': Control, m: string, outs: map<nat, Json>, node: string)
    requires Free(c) && c'.tasks == c.tasks && c'.children == c.children && c'.maps.Keys == c.maps.Keys + {node}
    requires c'.maps[node].done == 0 && |c'.maps[node].outputs| == |c'.maps[node].items| && c'.maps[node].next == 0
    ensures AllPlaced(c') && Tracks(c', m, if node == m then map[] else outs)
  {
  }

  /** A map closes when nothing of it is open. */
  lemma MapEnds(c: Control, c': Control, node: string)
    requires AllPlaced(c) && c'.tasks == c.tasks && c'.maps == c.maps - {node} && NoTaskOf(c, node)
    requires forall k | k in c'.children :: k in c.children && c'.children[k] == c.children[k] && c.children[k].owner != node
    ensures AllPlaced(c')
  {
    forall k | k in c'.tasks ensures TaskPlaced(c', k) { assert TaskPlaced(c, k); }
    forall k | k in c'.children ensures ChildPlaced(c', k) { assert ChildPlaced(c, k); }
  }

  lemma Fewer(c: Control, c': Control, m: string, outs: map<nat, Json>)
    requires Tracks(c, m, outs) && c'.tasks == c.tasks && c'.children.Keys <= c.children.Keys
    requires m in c'.maps ==> m in c.maps && c'.maps[m] == c.maps[m]
    ensures Tracks(c', m, outs)
  {
    forall i | ItemOpen(c', m, i) ensures ItemOpen(c, m, i) {}
    hide ItemOpen;
  }

  lemma ChildTracks(s: State, key: Key, child: Child, m: string, outs: map<nat, Json>)
    requires ChildGuard(s, key, child) && AllPlaced(s.ctl) && Tracks(s.ctl, m, outs)
    ensures var c' := WaitControl(s.ctl, ChildStarted(key, child, Null));
            AllPlaced(c') && Tracks(c', m, outs)
  {
    var c, c' := s.ctl, WaitControl(s.ctl, ChildStarted(key, child, Null));
    if key in c.children { PlacedChild(c, key); }
    forall k | k in c'.tasks ensures TaskPlaced(c', k) { assert TaskPlaced(c, k); }
    forall k | k in c'.children ensures ChildPlaced(c', k) {
      if k != key { assert ChildPlaced(c, k); }
    }
    StartTracks(c, c', key, m, outs);
  }

  lemma ChildEnds(c: Control, e: WaitEvent, m: string, outs: map<nat, Json>)
    requires AllPlaced(c) && Tracks(c, m, outs) && e.ChildDone? && e.key in c.children && c.children[e.key].node == e.node
    ensures AllPlaced(WaitControl(c, e)) && Tracks(WaitControl(c, e), m, OutputsAfter(outs, OfWait(e), m))
  {
    hide AllPlaced, Tracks, Marked, ItemDone, ChildSettled, IsItem;
    var c' := WaitControl(c, e);
    ReportedShape(c, e.key, e.ok, e.output);
    PlacedChild(c, e.key);
    if e.ok && e.key.Item? { DoneKeeps(c, e.key.node, e.key.index, e.output); }
    GonePlaced(c, c');
    GoneTracks(c, c', e.key, m, outs, if e.ok then Some(e.output) else None);
  }

  lemma WaitTracks(f: Flow, s: State, e: WaitEvent, m: string, outs: map<nat, Json>)
    requires WaitGuard(f, s, e) && AllPlaced(s.ctl) && Tracks(s.ctl, m, outs)
    ensures AllPlaced(WaitControl(s.ctl, e)) && Tracks(WaitControl(s.ctl, e), m, OutputsAfter(outs, OfWait(e), m))
  {
    hide AllPlaced, Tracks, InBudget, ChildGuard, Marked, ItemDone, ItemStarted, ChildSettled, ItemInRange;
    if e.ChildStarted? {
      ChildTracks(s, e.key, e.child, m, outs);
    } else if e.ChildDone? {
      ChildEnds(s.ctl, e, m, outs);
    } else {
      Untouched(s.ctl, WaitControl(s.ctl, e), m, outs);
    }
  }

  lemma LifeTracks(f: Flow, s: State, e: LifeEvent, time: int, m: string, outs: map<nat, Json>)
    requires Guard(f, s, OfLife(e)) && (e.Forked? ==> s == e.state) && AllPlaced(s.ctl) && Tracks(s.ctl, m, outs)
    ensures AllPlaced(After(f, s, OfLife(e), time).ctl) && Tracks(After(f, s, OfLife(e), time).ctl, m, outs)
  {
    hide After, Guard, AllPlaced, Tracks;
    LifeControl(f, s, e, time);
    var c' := After(f, s, OfLife(e), time).ctl;
    if c' == ClosedControl(s.ctl) {
      ClosedTracks(s.ctl, m, outs);
    } else {
      Untouched(s.ctl, c', m, outs);
    }
  }

  lemma ClosedTracks(c: Control, m: string, outs: map<nat, Json>)
    ensures AllPlaced(ClosedControl(c)) && Tracks(ClosedControl(c), m, outs)
  {
  }

  lemma StepTracks(f: Flow, s: State, b: Body, time: int, m: string, outs: map<nat, Json>)
    requires Guard(f, s, b) && (b.OfLife? && b.life.Forked? ==> s == b.life.state) && AllPlaced(s.ctl) && Tracks(s.ctl, m, outs)
    ensures AllPlaced(After(f, s, b, time).ctl) && Tracks(After(f, s, b, time).ctl, m, OutputsAfter(outs, b, m))
  {
    hide After, LifeGuard, NodeGuard, GraphGuard, WaitGuard, AllPlaced, Tracks, NodeControl, GraphControl, WaitControl;
    match b {
      case OfLife(e) => LifeTracks(f, s, e, time, m, outs);
      case OfNode(e) => WorkControl(f, s, b, time); NodeTracks(f, s, e, m, outs);
      case OfGraph(e) => WorkControl(f, s, b, time); GraphTracks(f, s, e, m, outs);
      case OfWait(e) => WorkControl(f, s, b, time); WaitTracks(f, s, e, m, outs);
    }
  }

  // ---- Whole runs ----

  lemma {:induction false} RunTracks(f: Flow, s0: State, evs: seq<Event>, m: string)
    requires Legal(f, s0, evs) && Lineal(f, s0, evs) && Free(s0.ctl)
    ensures FoldAll(f, s0, evs).Some?
    ensures AllPlaced(FoldAll(f, s0, evs).value.ctl) && Tracks(FoldAll(f, s0, evs).value.ctl, m, Outputs(evs, m))
    decreases |evs|
  {
    hide Guard, Follows, After, Legal, OutputsAfter;
    LegalFolds(f, s0, evs);
    if |evs| > 0 {
      var n := |evs| - 1;
      LegalPrefix(f, s0, evs, n);
      LinealBefore(f, s0, evs, n);
      RunTracks(f, s0, evs[..n], m);
      LegalStep(f, s0, evs, n);
      assert evs[..n + 1] == evs;
      hide FoldAll, AllPlaced, Tracks;
      StepTracks(f, At(f, s0, evs, n), evs[n].body, evs[n].time, m, Outputs(evs[..n], m));
    }
  }

  /** An item completes at most once per run of its map, however often it was retried, interrupted, resumed or forked. */
  lemma CompletesOnce(f: Flow, s0: State, evs: seq<Event>, n: nat)
    requires Legal(f, s0, evs) && Lineal(f, s0, evs) && Free(s0.ctl) && n < |evs| && ItemOf(evs[n].body).Some?
    ensures var k := ItemOf(evs[n].body).value; k.index !in Outputs(evs[..n], k.node)
  {
    hide Follows, After, Legal, AllPlaced, Outputs, LifeGuard, GraphGuard, Declared, ItemInRange, FoldAll;
    var k := ItemOf(evs[n].body).value;
    LegalPrefix(f, s0, evs, n);
    LinealBefore(f, s0, evs, n);
    RunTracks(f, s0, evs[..n], k.node);
    LegalStep(f, s0, evs, n);
    var c := At(f, s0, evs, n).ctl;
    if k in c.tasks { PlacedTask(c, k); } else { PlacedChild(c, k); }
  }

  /** When a map completes every item has completed, and its result is the list of their outputs in item order. */
  lemma MapResult(f: Flow, s0: State, evs: seq<Event>, n: nat)
    requires Legal(f, s0, evs) && Lineal(f, s0, evs) && Free(s0.ctl) && n < |evs|
    requires evs[n].body.OfGraph? && evs[n].body.graph.MapCompleted?
    ensures FoldAll(f, s0, evs[..n]).Some? && FoldAll(f, s0, evs[..n + 1]).Some?
    ensures var m := evs[n].body.graph.node;
            var outs := Outputs(evs[..n], m);
            && m in At(f, s0, evs, n).ctl.maps
            && (var items := At(f, s0, evs, n).ctl.maps[m].items;
                && outs.Keys == UpTo(|items|)
                && m in At(f, s0, evs, n + 1).data.results
                && At(f, s0, evs, n + 1).data.results[m] == Arr(seq(|items|, i requires 0 <= i < |items| => outs[i])))
  {
    hide Guard, Follows, Timely, After, Legal, AllPlaced, Tracks, Outputs, FoldAll;
    var m := evs[n].body.graph.node;
    LegalPrefix(f, s0, evs, n);
    LinealBefore(f, s0, evs, n);
    RunTracks(f, s0, evs[..n], m);
    LegalStep(f, s0, evs, n);
    var s := At(f, s0, evs, n);
    ResultRecorded(f, s, m, evs[n].time);
    AllDone(s.ctl, m, Outputs(evs[..n], m));
  }

  lemma ResultRecorded(f: Flow, s: State, m: string, time: int)
    requires Guard(f, s, OfGraph(MapCompleted(m)))
    ensures m in s.ctl.maps && s.ctl.maps[m].done == |s.ctl.maps[m].items|
    ensures var d := After(f, s, OfGraph(MapCompleted(m)), time).data;
            m in d.results && d.results[m] == Arr(s.ctl.maps[m].outputs)
  {
    hide After, LifeGuard, NodeGuard, WaitGuard;
    WorkData(f, s, OfGraph(MapCompleted(m)), time);
  }

  lemma AllDone(c: Control, m: string, outs: map<nat, Json>)
    requires Tracks(c, m, outs) && m in c.maps && c.maps[m].done == |c.maps[m].items|
    ensures outs.Keys == UpTo(|c.maps[m].items|)
    ensures c.maps[m].outputs == seq(|c.maps[m].items|, i requires 0 <= i < |c.maps[m].items| => outs[i])
  {
    hide ItemOpen;
    var all := UpTo(|c.maps[m].items|);
    assert outs.Keys <= all;
    SameSize(outs.Keys, all);
  }

  /** The numbers below n. */
  function UpTo(n: nat): (s: set<nat>)
    ensures |s| == n && forall i: nat :: i in s <==> i < n
  {
    if n == 0 then {} else UpTo(n - 1) + {n - 1}
  }

  lemma SameSize<T>(a: set<T>, b: set<T>)
    requires a <= b && |a| == |b|
    ensures a == b
  {
    assert b == a + (b - a);
  }

  /** The indexes of the open items of an open map. */
  function OpenIndexes(c: Control): set<nat>
    requires (forall k | k in c.tasks :: k.Item?) && (forall k | k in c.children :: k.Item?)
  {
    (set k | k in c.tasks :: k.index) + (set k | k in c.children :: k.index)
  }

  /** The open instances of map m are exactly its started and unfinished items, no more of them than may run at once. */
  ghost predicate ItemsOpen(c: Control, m: string, outs: map<nat, Json>)
    requires m in c.maps
  {
    && (forall i: nat :: ItemOpen(c, m, i) <==> i < c.maps[m].next && i !in outs)
    && c.maps[m].next - c.maps[m].done <= ParallelLimit(c.maps[m].maxParallel) && c.maps[m].done == |outs|
  }

  /** Between two decisions of a run the open instances of a map are exactly its started and unfinished items. */
  lemma OpenItems(f: Flow, s0: State, evs: seq<Event>, m: string)
    requires Legal(f, s0, evs) && Lineal(f, s0, evs) && Free(s0.ctl)
    requires FoldAll(f, s0, evs).Some? && Boundary(f, FoldAll(f, s0, evs).value) && m in FoldAll(f, s0, evs).value.ctl.maps
    ensures ItemsOpen(FoldAll(f, s0, evs).value.ctl, m, Outputs(evs, m))
  {
    hide Legal, FoldAll, Lineal, Tracks, AllPlaced, Outputs, ItemsOpen;
    RunTracks(f, s0, evs, m);
    var s := FoldAll(f, s0, evs).value;
    MapHeld(f, s, m);
    AtRest(f, s.ctl, m, Outputs(evs, m));
  }

  lemma MapHeld(f: Flow, s: State, m: string)
    requires Boundary(f, s) && m in s.ctl.maps
    ensures OnMap(f, s.ctl, m)
  {
    hide Timed, Numbered, Quiet, StepsOk, DataOk, OwnChildren, TaskOk, ChildOk, Undecided, MapCounted, MapBusy;
    if n :| OnMap(f, s.ctl, n) { assert m in s.ctl.maps.Keys; }
  }

  lemma AtRest(f: Flow, c: Control, m: string, outs: map<nat, Json>)
    requires OnMap(f, c, m) && Tracks(c, m, outs)
    ensures ItemsOpen(c, m, outs)
  {
    hide TaskOk, ChildOk, ItemOpen, UpTo, OpenIndexes, ParallelLimit;
    forall i: nat ensures ItemOpen(c, m, i) <==> i < c.maps[m].next && i !in outs {
      hide MapBusy, MapOpen;
      OpenCount(f, c, m);
      if i < c.maps[m].next { OneOpen(f, c, m, outs, i); }
    }
  }

  lemma OneOpen(f: Flow, c: Control, m: string, outs: map<nat, Json>, i: nat)
    requires OnMap(f, c, m) && Tracks(c, m, outs) && i < c.maps[m].next
    ensures ItemOpen(c, m, i) <==> i !in outs
  {
    hide MapBusy, MapOpen, ItemOpen, UpTo, OpenIndexes;
    OpenCount(f, c, m);
    Partition(UpTo(c.maps[m].next), OpenIndexes(c), outs.Keys);
  }

  /** Two disjoint parts that together are as many as the whole make up the whole. */
  lemma Partition(all: set<nat>, a: set<nat>, b: set<nat>)
    requires a <= all && b <= all && a !! b && |a| + |b| == |all|
    ensures all == a + b
  {
    SameSize(a + b, all);
  }

  lemma OpenCount(f: Flow, c: Control, m: string)
    requires MapOpen(f, c, m)
    ensures m in c.maps && (forall k | k in c.tasks :: k.Item?) && (forall k | k in c.children :: k.Item?)
    ensures |OpenIndexes(c)| == c.maps[m].next - c.maps[m].done
    ensures forall j: nat :: j in OpenIndexes(c) <==> ItemOpen(c, m, j)
    ensures forall j: nat :: ItemOpen(c, m, j) ==> j < c.maps[m].next
  {
    hide TaskOk, ChildOk;
    IndexCount(c.tasks.Keys, m);
    IndexCount(c.children.Keys, m);
    assert (set k | k in c.tasks :: k.index) == set k | k in c.tasks.Keys :: k.index;
    assert (set k | k in c.children :: k.index) == set k | k in c.children.Keys :: k.index;
    if f.byId[m].flow == "" { assert c.children.Keys == {}; } else { assert c.tasks.Keys == {}; }
    hide MapCounted;
    forall j: nat ensures j in OpenIndexes(c) <==> ItemOpen(c, m, j) {
      if ItemOpen(c, m, j) { assert Item(m, j).index == j; }
    }
  }

  lemma {:induction false} IndexCount(keys: set<Key>, m: string)
    requires forall k | k in keys :: k.Item? && k.node == m
    ensures |set k | k in keys :: k.index| == |keys|
    decreases |keys|
  {
    if keys != {} {
      var x :| x in keys;
      IndexCount(keys - {x}, m);
      assert (set k | k in keys :: k.index) == (set k | k in keys - {x} :: k.index) + {x.index};
    }
  }
}
