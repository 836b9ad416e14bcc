/** Where the history of an execution is kept (a live log, archived segments, a snapshot), how it is continued as new,
    and how states and histories are read back. */
module Loading {
  import opened Values
  import opened Flows
  import opened Fold
  import opened Histories

  /** The events of the archived segments, one after another. */
  function Unpacked(archive: map<nat, seq<Rec>>, segments: seq<Segment>): seq<Rec> {
    if |segments| == 0 then []
    else
      var seg := segments[|segments| - 1];
      Unpacked(archive, segments[..|segments| - 1]) + Get(archive, seg.firstIndex, [])
  }

  /** The live log is the history but for a purged part before its last base. */
  predicate LiveOk(full: seq<Rec>, live: seq<Rec>, cut: nat) {
    && cut <= |full| && live == full[cut..] && Whole(full, cut)
    && (if |full| == 0 then cut == 0 else cut <= LastBaseOf(full))
  }

  /** A state and the sequence of its last decision. */
  datatype Loaded = Loaded(st: State, last: nat)

  /** The state after k events, with its sequence. */
  predicate IsLoaded(f: Flow, exec: string, full: seq<Rec>, x: Loaded, k: nat) {
    k <= |full| && StateAt(f, exec, full, k) == Some(x.st) && x.last == SeqOf(full, k)
  }

  /** A snapshot is the state after some decision. */
  predicate SnapOk(f: Flow, exec: string, full: seq<Rec>, snap: Option<Loaded>, snapAt: nat) {
    snap.Some? ==> 0 < snapAt <= |full| && Whole(full, snapAt) && IsLoaded(f, exec, full, snap.value, snapAt)
  }

  /** What precedes the last continuation is in the archived segments the state names. */
  predicate ArchiveOk(f: Flow, exec: string, full: seq<Rec>, archive: map<nat, seq<Rec>>) {
    |full| > 0 ==>
      && StateAt(f, exec, full, |full|).Some? && LastBaseOf(full) >= 0
      && (var segs := StateAt(f, exec, full, |full|).value.book.segments;
          Packed(archive, segs, LastBaseOf(full)) && Unpacked(archive, segs) == full[..LastBaseOf(full)])
  }

  /** Every segment is archived, in an object named by an index up to top. */
  predicate Packed(archive: map<nat, seq<Rec>>, segments: seq<Segment>, top: int) {
    forall i :: 0 <= i < |segments| ==> segments[i].firstIndex <= top && segments[i].firstIndex in archive
  }

  /** An object with another name does not change what the segments hold. */
  lemma {:induction false} UnpackedStays(archive: map<nat, seq<Rec>>, segments: seq<Segment>, top: nat, name: nat, recs: seq<Rec>)
    requires Packed(archive, segments, top) && name > top
    ensures Unpacked(archive[name := recs], segments) == Unpacked(archive, segments)
    decreases |segments|
  {
    if |segments| > 0 {
      UnpackedStays(archive, segments[..|segments| - 1], top, name, recs);
    }
  }

  /** The position of the last continuation; -1 if there is none. */
  method LastContinued(evs: seq<Rec>) returns (last: int)
    ensures -1 <= last < |evs| && (last >= 0 ==> IsContinued(evs[last]))
    ensures forall j :: last < j < |evs| ==> !IsContinued(evs[j])
  {
    last := -1;
    for i := 0 to |evs|
      invariant -1 <= last < i && (last >= 0 ==> IsContinued(evs[last]))
      invariant forall j :: last < j < i ==> !IsContinued(evs[j])
    {
      if IsContinued(evs[i]) {
        last := i;
      }
    }
  }

  method Unpack(archive: map<nat, seq<Rec>>, segments: seq<Segment>) returns (recs: seq<Rec>)
    ensures recs == Unpacked(archive, segments)
  {
    recs := [];
    for i := 0 to |segments|
      invariant recs == Unpacked(archive, segments[..i])
    {
      assert segments[..i + 1][..i] == segments[..i];
      recs := recs + Get(archive, segments[i].firstIndex, []);
    }
    assert segments[..|segments|] == segments;
  }

  class Store {
    const f: Flow
    const exec: string
    var live: seq<Rec>
    var archive: map<nat, seq<Rec>>
    var snap: Option<Loaded>

    /** Every event ever stored, how many of them were purged from the live log, and what the snapshot covers. */
    ghost var full: seq<Rec>
    ghost var cut: nat
    ghost var snapAt: nat

    ghost predicate Valid()
      reads this
    {
      && HistoryOk(f, exec, full) && LiveOk(full, live, cut) && SnapOk(f, exec, full, snap, snapAt)
      && ArchiveOk(f, exec, full, archive)
    }

    constructor (f: Flow, exec: string)
      ensures Valid() && this.f == f && this.exec == exec && full == []
    {
      this.f, this.exec := f, exec;
      live, archive, snap := [], map[], None;
      full, cut, snapAt := [], 0, 0;
    }

    // ---- Reading ----

    /** The stored events with a sequence from first to last; last 0 is no limit. */
    method Read(first: nat, last: nat) returns (recs: seq<Rec>)
      requires Sorted(live)
      ensures recs == Between(live, first, last)
    {
      hide Sorted;
      recs := [];
      var i := 0;
      while i < |live| && live[i].at < first
        invariant 0 <= i <= |live| && forall j :: 0 <= j < i ==> live[j].at < first
      {
        i := i + 1;
      }
      ghost var lo := i;
      StartIs(live, first, lo);
      while i < |live| && (last == 0 || live[i].at <= last)
        invariant lo <= i <= |live| && recs == live[lo..i]
        invariant forall j :: lo <= j < i ==> last == 0 || live[j].at <= last
      {
        recs := recs + [live[i]];
        i := i + 1;
      }
      if lo < i { ReachIs(live, last, i); }
    }

    /** The sequence of the first event in the live log; 0 if there is none. */
    method FirstSeq() returns (first: nat)
      ensures first == if |live| == 0 then 0 else live[0].at
    {
      return if |live| == 0 then 0 else live[0].at;
    }

    /** The sequence of the last event; 0 if there is none. */
    method LastSeq() returns (last: nat)
      requires Valid()
      ensures last == SeqOf(full, |full|)
    {
      hide FoldRecs, SnapOk, ArchiveOk;
      return if |live| == 0 then 0 else live[|live| - 1].at;
    }

    /** A usable snapshot: none that is later than what is asked for. */
    method SnapshotFor(upTo: nat) returns (st: Option<Loaded>)
      requires Valid()
      ensures st.Some? ==> st == snap && 0 < snapAt <= Reach(full, upTo) && Whole(full, snapAt)
      ensures st.Some? ==> st.value.last == full[snapAt - 1].at
    {
      hide LiveOk, ArchiveOk, FoldRecs;
      if snap.None? || (upTo > 0 && snap.value.last > upTo) {
        return None;
      }
      StateCounts(f, exec, full, snapAt);
      return snap;
    }

    /** Decides, from what was read and where the live log begins, that no event is missing between snapshot x and evs. */
    method Continues(x: Loaded, evs: seq<Rec>, ghost hi: nat) returns (ok: bool)
      requires Valid() && snap == Some(x) && snapAt <= hi <= |full| && evs == Slice(full, Later(cut, snapAt), hi)
      ensures ok ==> evs == full[snapAt..hi]
    {
      hide ArchiveOk, FoldRecs, StateAt;
      StateCounts(f, exec, full, snapAt);
      if |evs| > 0 {
        ok := evs[0].ev.index == x.st.book.events + 1;
        return;
      }
      var first := FirstSeq();
      ok := first != 0 && first <= x.last;
    }

    /** Searches evs backwards for an event that is a base; -1 if there is none. */
    method LastBase(evs: seq<Rec>) returns (i: int)
      ensures i == LastBaseOf(evs)
    {
      i := |evs| - 1;
      while i >= 0
        invariant -1 <= i < |evs| && LastBaseOf(evs[..i + 1]) == LastBaseOf(evs)
      {
        assert evs[..i + 1][..i] == evs[..i];
        if BasesState(evs[i]) {
          return;
        }
        i := i - 1;
      }
    }

    /** Folds recs onto state st0, which is of another part of the history than recs. */
    method FoldFrom(st0: State, recs: seq<Rec>) returns (st: Option<State>)
      ensures st == FoldRecs(f, st0, recs)
    {
      var s := st0;
      for i := 0 to |recs|
        invariant FoldRecs(f, st0, recs[..i]) == Some(s)
      {
        assert recs[..i + 1][..i] == recs[..i];
        var next := Apply(f, s, recs[i].ev);
        if next.None? {
          FoldStops(f, st0, recs, i + 1);
          return None;
        }
        s := next.value;
      }
      assert recs[..|recs|] == recs;
      return Some(s);
    }

    /** The archived segments followed by the live events from the last continuation on. */
    method WithSegments(evs: seq<Rec>) returns (recs: seq<Rec>)
      requires Valid() && evs == live && |live| > 0
      ensures recs == full
    {
      hide FoldRecs, StateAt, ArchiveOk, Unpacked;
      var last := LastContinued(evs);
      LastContinuation(this);
      if last < 0 {
        return evs;
      }
      var archived := Unpack(archive, evs[last].ev.body.life.state.book.segments);
      recs := archived + evs[last..];
    }

    /** Folds from the whole history, when what is asked for is older than the live log. */
    method LoadFromHistory(upTo: nat) returns (st: Option<Loaded>)
      requires Valid()
      ensures st.Some? && IsLoaded(f, exec, full, st.value, Reach(full, upTo))
    {
      hide FoldRecs, ArchiveOk;
      SortedSuffix(full, cut);
      ReadsFull(full, cut, 0, 0);
      var evs := Read(1, 0);
      if |evs| == 0 {
        NothingFolded(f, exec, full);
        return Some(Loaded(New(exec), 0));
      }
      var recs := WithSegments(evs);
      StateCounts(f, exec, full, Reach(full, upTo));
      st := FoldUpTo(recs, upTo);
    }

    method FoldUpTo(recs: seq<Rec>, upTo: nat) returns (st: Option<Loaded>)
      requires Sorted(recs)
      ensures var s := FoldRecs(f, New(exec), recs[..Reach(recs, upTo)]);
              st == if s.None? then None else Some(Loaded(s.value, SeqOf(recs, Reach(recs, upTo))))
    {
      var k := 0;
      while k < |recs| && (upTo == 0 || recs[k].at <= upTo)
        invariant 0 <= k <= |recs| && forall j :: 0 <= j < k ==> upTo == 0 || recs[j].at <= upTo
      {
        k := k + 1;
      }
      ReachIs(recs, upTo, k);
      var s := FoldFrom(New(exec), recs[..k]);
      return if s.None? then None else Some(Loaded(s.value, if k == 0 then 0 else recs[k - 1].at));
    }

    /** A snapshot that is usable and the events that follow it, or no snapshot and all the live events. */
    method Tail(upTo: nat) returns (base: Option<Loaded>, evs: seq<Rec>)
      requires Valid()
      ensures base.Some? ==> base == snap && snapAt <= Reach(full, upTo) && evs == full[snapAt..Reach(full, upTo)]
      ensures base.None? ==> evs == Slice(full, cut, Reach(full, upTo))
    {
      hide ArchiveOk, SnapOk, HistoryOk, LastBaseOf, Whole, Reach, Slice, Between;
      SortedHistory(f, exec, full);
      SortedSuffix(full, cut);
      hide Sorted;
      base := SnapshotFor(upTo);
      FromStart(full);
      ReadsFull(full, cut, if base.Some? then snapAt else 0, upTo);
      evs := Read(if base.Some? then base.value.last + 1 else 1, upTo);
      if base.Some? {
        var ok := Continues(base.value, evs, Reach(full, upTo));
        if !ok {
          // The log moved past the snapshot.
          base := None;
          ReadsFull(full, cut, 0, upTo);
          evs := Read(1, upTo);
        }
      }
    }

    /** The state of the execution at sequence upTo, 0 being the end: whatever snapshot there is, and however much of the
        log was purged, it is the fold of the full history up to there. */
    method Load(upTo: nat) returns (st: Option<Loaded>)
      requires Valid()
      ensures st.Some? && IsLoaded(f, exec, full, st.value, Reach(full, upTo))
    {
      hide FoldRecs, ArchiveOk, StateAt, HistoryOk, LastBaseOf, Whole;
      StateCounts(f, exec, full, Reach(full, upTo));
      ghost var hi := Reach(full, upTo);
      var base, evs := Tail(upTo);
      if base.None? && |evs| == 0 {
        if upTo > 0 {
          st := LoadFromHistory(upTo);
          return;
        }
        NoLive(this);
        return Some(Loaded(New(exec), 0));
      }
      var i := LastBase(evs);
      var s;
      if i >= 0 {
        BaseFound(f, exec, full, if base.Some? then snapAt else cut, hi, i);
        s := FoldFrom(New(exec), evs[i..]);
      } else if base.None? {
        st := LoadFromHistory(upTo);
        return;
      } else {
        AfterSnapshot(f, exec, full, snapAt, hi);
        s := FoldFrom(base.value.st, evs);
      }
      return Some(Loaded(s.value, if |evs| > 0 then evs[|evs| - 1].at else base.value.last));
    }

    /** Every event of the execution, oldest first. */
    method History() returns (recs: seq<Rec>)
      requires Valid()
      ensures recs == full
    {
      hide FoldRecs, ArchiveOk, StateAt;
      ReadsFull(full, cut, 0, 0);
      SortedSuffix(full, cut);
      var evs := Read(1, 0);
      if |evs| == 0 {
        return [];
      }
      recs := WithSegments(evs);
    }

    // ---- Writing: each step by itself keeps the store valid, so a crash after any of them does too ----

    /** Appends a decision that is no continuation. */
    method Append(at: nat, evs: seq<Event>)
      requires Valid() && evs != [] && HistoryOk(f, exec, full + Recs(at, evs))
      requires |full| > 0 ==> at > full[|full| - 1].at
      requires forall i :: 0 <= i < |evs| ==> !(evs[i].body.OfLife? && evs[i].body.life.Continued?)
      modifies this`live, this`full
      ensures Valid() && full == old(full) + Recs(at, evs)
    {
      hide FoldRecs, HistoryOk, LiveOk, SnapOk, ArchiveOk;
      DecisionKeeps(f, exec, full, Recs(at, evs), live, cut, snap, snapAt, archive);
      live := live + Recs(at, evs);
      full := full + Recs(at, evs);
    }

    method SaveSnapshot(x: Loaded, ghost k: nat)
      requires Valid() && 0 < k <= |full| && Whole(full, k) && IsLoaded(f, exec, full, x, k)
      modifies this`snap, this`snapAt
      ensures Valid()
    {
      hide HistoryOk, LiveOk, ArchiveOk, StateAt;
      snap, snapAt := Some(x), k;
    }

    /** Writes an archive object under a name no segment of the history uses. */
    method PutArchive(name: nat, recs: seq<Rec>)
      requires Valid() && |full| > 0 && name > LastBaseOf(full)
      modifies this`archive
      ensures Valid() && archive == old(archive)[name := recs]
    {
      hide FoldRecs, HistoryOk, LiveOk, SnapOk, StateAt;
      UnpackedStays(archive, StateAt(f, exec, full, |full|).value.book.segments, LastBaseOf(full), name, recs);
      archive := archive[name := recs];
    }

    /** Appends a continuation to the log whose last event is that of the state it carries. */
    method AppendContinuation(at: nat, ev: Event, segment: Segment)
      requires Valid() && |full| > 0 && at > full[|full| - 1].at && Carries(f, exec, full, ev, segment)
      requires segment.firstIndex == LastBaseOf(full) + 1
      requires segment.firstIndex in archive && archive[segment.firstIndex] == full[LastBaseOf(full)..]
      modifies this`live, this`full
      ensures Valid() && full == old(full) + [Rec(at, ev)]
    {
      hide FoldRecs, HistoryOk, LiveOk, SnapOk, ArchiveOk, Carries;
      HasBase(f, exec, full);
      ContinuationKeeps(f, exec, full, Rec(at, ev), segment, live, cut, snap, snapAt, archive);
      live := live + [Rec(at, ev)];
      full := full + [Rec(at, ev)];
    }

    /** Removes the events stored before sequence first, none of them at or after the last base. */
    method PurgeBefore(first: nat)
      requires Valid() && (|full| > 0 ==> first <= full[LastBaseOf(full)].at)
      modifies this`live, this`cut
      ensures Valid() && old(cut) <= cut && forall i :: old(cut) <= i < cut ==> full[i].at < first
    {
      hide HistoryOk, SnapOk, ArchiveOk, LastBaseOf;
      var k := 0;
      while k < |live| && live[k].at < first
        invariant 0 <= k <= |live| && (|full| > 0 ==> cut + k <= LastBaseOf(full))
        invariant forall i :: 0 <= i < k ==> live[i].at < first
      {
        assert live[k] == full[cut + k];
        k := k + 1;
      }
      assert cut + k < |full| ==> live[k] == full[cut + k];
      assert k > 0 ==> live[k - 1] == full[cut + k - 1];
      assert live[k..] == full[cut + k..];
      assert forall i :: cut <= i < cut + k ==> full[i] == live[i - cut];
      live := live[k..];
      cut := cut + k;
    }

    /** Bounds the live log: archives it from the current base on, appends a continuation carrying
        the state, saves it and purges what is stored up to sequence floor. It stops after the given number of steps,
        wherever that falls; saved says whether saving works, which it goes on without. x is the state after k events;
        no other continuation happened since. */
    method ContinueAsNew(x: Loaded, ghost k: nat, at: nat, time: int, cmdId: string, floor: nat, saved: bool, steps: nat)
      requires Valid() && 0 < k <= |full| && Whole(full, k) && IsLoaded(f, exec, full, x, k)
      requires LastBaseOf(full[..k]) == LastBaseOf(full) && at > full[|full| - 1].at
      modifies this`live, this`archive, this`snap, this`full, this`cut, this`snapAt
      ensures Valid() && old(cut) <= cut && forall i :: old(cut) <= i < cut ==> full[i].at <= floor
      ensures full != old(full) ==>
                && k == |old(full)| && |full| == k + 1 && full[..k] == old(full) && IsContinued(full[k]) && full[k].at == at
                && StateAt(f, exec, full, k + 1).Some?
                && (var s := StateAt(f, exec, full, k + 1).value; s == x.st.(book := s.book))
    {
      hide HistoryOk, ArchiveOk, StateAt, LiveOk, SnapOk, LastBaseOf;
      if Terminal(x.st.phase) || steps < 1 {
        return;
      }
      var seg := CurrentSegment(x, k);
      var first, last := seg[0], seg[|seg| - 1];
      var segment := Segment(first.ev.index, last.ev.index, first.at, last.at);
      PutArchive(segment.firstIndex, seg);
      if steps < 2 { return; }
      AppendCarrying(x, k, segment, at, time, cmdId, floor, saved, steps);
    }

    /** The steps of a continuation after its segment was archived. */
    method AppendCarrying(x: Loaded, ghost k: nat, segment: Segment, at: nat, time: int, cmdId: string, floor: nat, saved: bool,
                          steps: nat)
      requires Valid() && 0 < k <= |full| && Whole(full, k) && IsLoaded(f, exec, full, x, k) && at > full[|full| - 1].at
      requires segment.firstIndex == LastBaseOf(full) + 1 && 0 <= LastBaseOf(full) < k
      requires segment.firstIndex in archive && archive[segment.firstIndex] == full[LastBaseOf(full)..k]
      modifies this`live, this`snap, this`full, this`cut, this`snapAt
      ensures Valid() && old(cut) <= cut && forall i :: old(cut) <= i < cut ==> full[i].at <= floor
      ensures full != old(full) ==>
                && k == |old(full)| && |full| == k + 1 && full[..k] == old(full) && IsContinued(full[k]) && full[k].at == at
                && StateAt(f, exec, full, k + 1).Some?
                && (var s := StateAt(f, exec, full, k + 1).value; s == x.st.(book := s.book))
    {
      hide HistoryOk, ArchiveOk, StateAt, LiveOk, SnapOk, LastBaseOf, Apply;
      StateCounts(f, exec, full, k);
      SortedHistory(f, exec, full);
      HeadIsLast(full, live, cut, k);
      hide Sorted, Whole;
      if live[|live| - 1].at != x.last {
        return; // another engine wrote first
      }
      var st := x.st;
      var carried := st.(book := st.book.(segments := st.book.segments + [segment]));
      var ev := Event(st.book.events + 1, time, cmdId, OfLife(Continued(carried, segment)));
      assert full[..k] == full && full[LastBaseOf(full)..] == full[LastBaseOf(full)..k];
      AppendContinuation(at, ev, segment);
      assert full[..k] == old(full)[..k];
      SamePrefix(f, exec, full, old(full), k);
      ContinuedState(f, exec, full, k, st);
      if steps < 3 { return; }
      var next := Apply(f, st, ev).value;
      assert Whole(full, k + 1) by { ToEnd(full); }
      if saved {
        SaveSnapshot(Loaded(next, at), k + 1);
      }
      if steps < 4 || floor == 0 { return; }
      ContinuationIsBase(full);
      PurgeBefore(if at < floor + 1 then at else floor + 1);
    }

    /** The part of the history that the next continuation archives: from the current base to the events x has folded. */
    method CurrentSegment(x: Loaded, ghost k: nat) returns (seg: seq<Rec>)
      requires Valid() && 0 < k <= |full| && Whole(full, k) && IsLoaded(f, exec, full, x, k)
      requires LastBaseOf(full[..k]) == LastBaseOf(full)
      ensures 0 <= LastBaseOf(full) < k && seg == full[LastBaseOf(full)..k] && |seg| > 0
      ensures seg[0].ev.index == LastBaseOf(full) + 1
    {
      hide ArchiveOk, SnapOk, StateAt, LastBaseOf, Reach, HistoryOk, Whole, Sorted, Between;
      SegmentFacts(f, exec, full, k, x);
      SortedSuffix(full, cut);
      FromStart(full);
      ReadsFull(full, cut, 0, x.last);
      var evs := Read(1, x.last);
      seg := FromIndex(evs, x.st.book.base, full, cut, LastBaseOf(full), k);
    }
  }

  /** The events of evs from index base on: of a live part of the history, those from position b, where its last base is. */
  method FromIndex(evs: seq<Rec>, base: nat, ghost full: seq<Rec>, ghost cut: nat, ghost b: nat, ghost k: nat)
    returns (seg: seq<Rec>)
    requires cut <= b < k <= |full| && evs == full[cut..k] && (base == b + 1 || (base == 0 && b == 0))
    requires forall i :: 0 <= i < |full| ==> full[i].ev.index == i + 1
    ensures seg == full[b..k]
  {
    seg := [];
    for i := 0 to |evs|
      invariant seg == Slice(full, b, cut + i)
    {
      assert evs[i] == full[cut + i];
      if evs[i].ev.index >= base {
        seg := seg + [evs[i]];
      }
    }
  }

  function Recs(at: nat, evs: seq<Event>): (r: seq<Rec>)
    ensures |r| == |evs| && forall i :: 0 <= i < |evs| ==> r[i] == Rec(at, evs[i])
  {
    seq(|evs|, i requires 0 <= i < |evs| => Rec(at, evs[i]))
  }

  /** ev continues the history full: it carries its state, with segment added to those archived. */
  predicate Carries(f: Flow, exec: string, full: seq<Rec>, ev: Event, segment: Segment) {
    && StateAt(f, exec, full, |full|).Some? && ev.index == |full| + 1
    && (var s := StateAt(f, exec, full, |full|).value;
        ev.body == OfLife(Continued(s.(book := s.book.(segments := s.book.segments + [segment])), segment)))
  }

  /** Where the current segment of a state begins, and up to which sequence to read for it. */
  lemma SegmentFacts(f: Flow, exec: string, full: seq<Rec>, k: nat, x: Loaded)
    requires HistoryOk(f, exec, full) && 0 < k <= |full| && Whole(full, k) && IsLoaded(f, exec, full, x, k)
    requires LastBaseOf(full[..k]) == LastBaseOf(full)
    ensures 0 <= LastBaseOf(full) < k && Sorted(full) && Reach(full, x.last) == k
    ensures x.st.book.base == LastBaseOf(full) + 1 || (x.st.book.base == 0 && LastBaseOf(full) == 0)
    ensures forall i :: 0 <= i < |full| ==> full[i].ev.index == i + 1
  {
    hide StateAt, LastBaseOf;
    StateCounts(f, exec, full, k);
    BaseIs(f, exec, full, k);
    ReachIs(full, x.last, k);
  }

  lemma ToEnd(full: seq<Rec>)
    ensures Whole(full, |full|)
  {
  }

  lemma FromStart(full: seq<Rec>)
    ensures Whole(full, 0)
  {
  }

  lemma SortedHistory(f: Flow, exec: string, full: seq<Rec>)
    requires HistoryOk(f, exec, full)
    ensures Sorted(full)
  {
  }

  lemma {:induction false} FoldStops(f: Flow, s: State, recs: seq<Rec>, k: nat)
    requires k <= |recs| && FoldRecs(f, s, recs[..k]).None?
    ensures FoldRecs(f, s, recs).None?
    decreases |recs| - k
  {
    hide ApplyRec;
    if k == |recs| {
      assert recs[..k] == recs;
    } else {
      assert recs[..k + 1][..k] == recs[..k];
      FoldStops(f, s, recs, k + 1);
    }
  }

  /** The last continuation, if there is one, is in the live log, and the archive holds what precedes it; otherwise the
      live log is the whole history. */
  lemma LastContinuation(store: Store)
    requires store.Valid() && |store.live| > 0
    ensures var b := LastBaseOf(store.full);
            && store.cut <= b < |store.full|
            && (forall j :: b < j < |store.full| ==> !IsContinued(store.full[j]))
            && (if IsContinued(store.full[b]) then
                  Unpacked(store.archive, store.full[b].ev.body.life.state.book.segments) == store.full[..b]
                else b == 0)
  {
    hide FoldRecs;
    assert store.full[..|store.full|] == store.full;
    BaseIs(store.f, store.exec, store.full, |store.full|);
  }

  /** Without live events there are none at all. */
  lemma NoLive(store: Store)
    requires store.Valid() && |Slice(store.full, store.cut, |store.full|)| == 0
    ensures store.full == [] && StateAt(store.f, store.exec, store.full, 0) == Some(New(store.exec))
  {
    NothingFolded(store.f, store.exec, store.full);
    hide FoldRecs, StateAt;
  }

  lemma {:induction false} BaseFound(f: Flow, exec: string, full: seq<Rec>, lo: nat, hi: nat, i: nat)
    requires HistoryOk(f, exec, full) && lo < hi <= |full| && i < hi - lo && i == LastBaseOf(full[lo..hi])
    ensures FoldRecs(f, New(exec), full[lo..hi][i..]) == StateAt(f, exec, full, hi)
  {
    hide FoldRecs, StateAt;
    assert full[lo..hi][i..] == full[lo + i..hi];
    FoldFromBase(f, exec, full, lo + i, hi);
  }

  lemma {:induction false} AfterSnapshot(f: Flow, exec: string, full: seq<Rec>, k: nat, hi: nat)
    requires HistoryOk(f, exec, full) && k <= hi <= |full|
    ensures StateAt(f, exec, full, k).Some?
    ensures FoldRecs(f, StateAt(f, exec, full, k).value, full[k..hi]) == StateAt(f, exec, full, hi)
  {
    hide FoldRecs;
    StateCounts(f, exec, full, k);
    assert full[..k] + full[k..hi] == full[..hi];
    FoldRecsConcat(f, New(exec), full[..k], full[k..hi]);
  }

  function Later(a: nat, b: nat): nat { if a < b then b else a }

  function Slice(full: seq<Rec>, lo: nat, hi: nat): seq<Rec>
    requires hi <= |full|
  {
    if lo < hi then full[lo..hi] else []
  }

  /** The position of the first record at sequence first or later. */
  function Start(recs: seq<Rec>, first: nat): (k: nat)
    ensures k <= |recs|
    ensures Sorted(recs) ==> forall i :: 0 <= i < |recs| ==> (i < k <==> recs[i].at < first)
  {
    if |recs| == 0 then 0
    else if recs[|recs| - 1].at < first then |recs|
    else Start(recs[..|recs| - 1], first)
  }

  function Between(recs: seq<Rec>, first: nat, last: nat): seq<Rec> { Slice(recs, Start(recs, first), Reach(recs, last)) }

  /** The sequence right after the first k events. */
  function Next(full: seq<Rec>, k: nat): nat
    requires k <= |full|
  {
    if k == 0 then 1 else full[k - 1].at + 1
  }

  /** What is read of a live log from right after position k. */
  lemma {:induction false} ReadsFull(full: seq<Rec>, cut: nat, k: nat, last: nat)
    requires Sorted(full) && cut <= |full| && k <= |full| && Whole(full, k)
    ensures Sorted(full[cut..])
    ensures Between(full[cut..], Next(full, k), last) == Slice(full, Later(cut, k), Reach(full, last))
  {
    hide Sorted, Whole, Start, Reach, Next, Slice;
    SortedSuffix(full, cut);
    StartSuffix(full, cut, k);
    ReachSuffix(full, cut, last);
    SliceSuffix(full, cut, Later(cut, k), Reach(full, last));
  }

  lemma SliceSuffix(full: seq<Rec>, cut: nat, lo: nat, hi: nat)
    requires cut <= lo && hi <= |full| && cut <= |full|
    ensures Slice(full[cut..], lo - cut, if hi < cut then 0 else hi - cut) == Slice(full, lo, hi)
  {
    if lo < hi { assert full[cut..][lo - cut..hi - cut] == full[lo..hi]; }
  }

  lemma {:induction false} StartSuffix(full: seq<Rec>, cut: nat, k: nat)
    requires Sorted(full) && cut <= |full| && k <= |full| && Whole(full, k)
    ensures Start(full[cut..], Next(full, k)) == Later(cut, k) - cut
  {
    SortedSuffix(full, cut);
    var lo := Later(cut, k);
    assert k < lo < |full| ==> full[k].at <= full[lo].at;
    hide Sorted;
    StartIs(full[cut..], Next(full, k), lo - cut);
  }

  lemma {:induction false} SortedSuffix(full: seq<Rec>, cut: nat)
    requires Sorted(full) && cut <= |full|
    ensures Sorted(full[cut..])
  {
  }

  lemma {:induction false} ReachSuffix(full: seq<Rec>, cut: nat, last: nat)
    requires Sorted(full) && cut <= |full|
    ensures Reach(full[cut..], last) == (if Reach(full, last) < cut then 0 else Reach(full, last) - cut)
  {
    SortedSuffix(full, cut);
    var hi := Reach(full, last);
    ReachIs(full[cut..], last, if hi < cut then 0 else hi - cut);
  }

  lemma {:induction false} StartIs(recs: seq<Rec>, first: nat, k: nat)
    requires Sorted(recs) && k <= |recs| && (k > 0 ==> recs[k - 1].at < first) && (k < |recs| ==> recs[k].at >= first)
    ensures Start(recs, first) == k
  {
  }

  lemma {:induction false} ReachIs(recs: seq<Rec>, last: nat, k: nat)
    requires Sorted(recs) && k <= |recs| && (if last == 0 then k == |recs| else
               (k > 0 ==> recs[k - 1].at <= last) && (k < |recs| ==> recs[k].at > last))
    ensures Reach(recs, last) == k
  {
  }

  // ---- What each write keeps ----

  lemma {:induction false} HasBase(f: Flow, exec: string, full: seq<Rec>)
    requires HistoryOk(f, exec, full) && |full| > 0
    ensures LastBaseOf(full) >= 0
  {
    hide FoldRecs;
    assert IsFirst(full[0]);
    assert BasesState(full[0]);
  }

  lemma {:induction false} BaseStays(f: Flow, exec: string, full: seq<Rec>, recs: seq<Rec>)
    requires HistoryOk(f, exec, full) && HistoryOk(f, exec, full + recs) && |recs| > 0
    requires forall i :: 0 <= i < |recs| ==> !IsContinued(recs[i])
    ensures LastBaseOf(full + recs) == if |full| > 0 then LastBaseOf(full) else 0
  {
    hide FoldRecs;
    var g := full + recs;
    HasBase(f, exec, g);
    if |full| > 0 { HasBase(f, exec, full); }
    forall i | |full| <= i < |g| && i > 0 ensures !BasesState(g[i]) {
      assert g[i] == recs[i - |full|] && !IsFirst(g[i]);
    }
    hide LastBaseOf, HistoryOk;
    if |full| > 0 { assert g[LastBaseOf(full)] == full[LastBaseOf(full)]; }
    assert g[LastBaseOf(g)] == if LastBaseOf(g) < |full| then full[LastBaseOf(g)] else recs[LastBaseOf(g) - |full|];
  }

  lemma {:induction false} LiveGrows(full: seq<Rec>, recs: seq<Rec>, live: seq<Rec>, cut: nat)
    requires LiveOk(full, live, cut) && |recs| > 0 && (|full| > 0 ==> LastBaseOf(full) <= LastBaseOf(full + recs))
    requires LastBaseOf(full + recs) >= 0
    ensures LiveOk(full + recs, live + recs, cut)
  {
    hide LastBaseOf;
    assert (full + recs)[cut..] == full[cut..] + recs;
    assert 0 < cut < |full| ==> (full + recs)[cut - 1] == full[cut - 1] && (full + recs)[cut] == full[cut];
  }

  lemma {:induction false} SnapStays(f: Flow, exec: string, full: seq<Rec>, recs: seq<Rec>, snap: Option<Loaded>, snapAt: nat)
    requires SnapOk(f, exec, full, snap, snapAt) && |recs| > 0 && (|full| > 0 ==> recs[0].at > full[|full| - 1].at)
    ensures SnapOk(f, exec, full + recs, snap, snapAt)
  {
    hide FoldRecs;
    if snap.Some? { assert (full + recs)[..snapAt] == full[..snapAt]; }
  }

  lemma {:induction false} SegmentsStay(f: Flow, exec: string, full: seq<Rec>, recs: seq<Rec>, archive: map<nat, seq<Rec>>)
    requires HistoryOk(f, exec, full) && HistoryOk(f, exec, full + recs) && |recs| > 0
    requires forall i :: 0 <= i < |recs| ==> !IsContinued(recs[i])
    requires ArchiveOk(f, exec, full, archive)
    ensures ArchiveOk(f, exec, full + recs, archive)
  {
    hide HistoryOk, LastBaseOf, StateAt, Packed, Unpacked;
    var g := full + recs;
    assert g[..|g|] == g && full[..|full|] == full;
    BaseStays(f, exec, full, recs);
    BaseIs(f, exec, g, |g|);
    if |full| > 0 {
      BaseIs(f, exec, full, |full|);
      var b := LastBaseOf(full);
      assert g[b] == full[b] && g[..b] == full[..b];
    } else {
      assert g[..0] == [] && g[0] == recs[0];
      NoSegments(archive);
    }
  }

  lemma NoSegments(archive: map<nat, seq<Rec>>)
    ensures Packed(archive, [], 0) && Unpacked(archive, []) == []
  {
  }

  lemma SamePrefix(f: Flow, exec: string, a: seq<Rec>, b: seq<Rec>, k: nat)
    requires k <= |a| && k <= |b| && a[..k] == b[..k]
    ensures StateAt(f, exec, a, k) == StateAt(f, exec, b, k)
  {
  }

  lemma {:induction false} DecisionKeeps(f: Flow, exec: string, full: seq<Rec>, recs: seq<Rec>, live: seq<Rec>, cut: nat,
                      snap: Option<Loaded>, snapAt: nat, archive: map<nat, seq<Rec>>)
    requires HistoryOk(f, exec, full) && HistoryOk(f, exec, full + recs) && |recs| > 0
    requires forall i :: 0 <= i < |recs| ==> !IsContinued(recs[i])
    requires |full| > 0 ==> recs[0].at > full[|full| - 1].at
    requires LiveOk(full, live, cut) && SnapOk(f, exec, full, snap, snapAt) && ArchiveOk(f, exec, full, archive)
    ensures LiveOk(full + recs, live + recs, cut) && SnapOk(f, exec, full + recs, snap, snapAt)
    ensures ArchiveOk(f, exec, full + recs, archive)
  {
    hide FoldRecs, HistoryOk, LiveOk, SnapOk, ArchiveOk, LastBaseOf;
    BaseStays(f, exec, full, recs);
    HasBase(f, exec, full + recs);
    LiveGrows(full, recs, live, cut);
    SnapStays(f, exec, full, recs, snap, snapAt);
    SegmentsStay(f, exec, full, recs, archive);
  }

  lemma {:induction false} ContinuedHistory(f: Flow, exec: string, full: seq<Rec>, r: Rec, segment: Segment)
    requires HistoryOk(f, exec, full) && |full| > 0 && r.at > full[|full| - 1].at && Carries(f, exec, full, r.ev, segment)
    ensures HistoryOk(f, exec, full + [r]) && Apply(f, StateAt(f, exec, full, |full|).value, r.ev).Some?
    ensures StateAt(f, exec, full + [r], |full| + 1) == ApplyRec(f, StateAt(f, exec, full, |full|).value, r)
    ensures LastBaseOf(full + [r]) == |full|
  {
    StateCounts(f, exec, full, |full|);
    var g := full + [r];
    assert g[..|full|] == full && full[..|full|] == full && g[..|g|] == g;
    assert BasesState(g[|full|]);
    hide BodyStep;
  }

  lemma {:induction false} SegmentsGrow(f: Flow, exec: string, full: seq<Rec>, r: Rec, segment: Segment, archive: map<nat, seq<Rec>>)
    requires HistoryOk(f, exec, full) && |full| > 0 && r.at > full[|full| - 1].at && Carries(f, exec, full, r.ev, segment)
    requires segment.firstIndex == LastBaseOf(full) + 1 && LastBaseOf(full) >= 0
    requires segment.firstIndex in archive && archive[segment.firstIndex] == full[LastBaseOf(full)..]
    requires ArchiveOk(f, exec, full, archive)
    ensures ArchiveOk(f, exec, full + [r], archive)
  {
    hide FoldRecs;
    ContinuedHistory(f, exec, full, r, segment);
    var g := full + [r];
    HasBase(f, exec, full);
    BooksKept(f, StateAt(f, exec, full, |full|).value, r.ev);
    hide Apply, StateAt, HistoryOk, LastBaseOf;
    var segs := StateAt(f, exec, full, |full|).value.book.segments;
    var all := segs + [segment];
    assert all[..|segs|] == segs;
    assert full[..LastBaseOf(full)] + full[LastBaseOf(full)..] == full;
    assert g[..|full|] == full;
  }

  lemma {:induction false} ContinuationKeeps(f: Flow, exec: string, full: seq<Rec>, r: Rec, segment: Segment, live: seq<Rec>, cut: nat,
                          snap: Option<Loaded>, snapAt: nat, archive: map<nat, seq<Rec>>)
    requires HistoryOk(f, exec, full) && |full| > 0 && r.at > full[|full| - 1].at && Carries(f, exec, full, r.ev, segment)
    requires segment.firstIndex == LastBaseOf(full) + 1 && LastBaseOf(full) >= 0
    requires segment.firstIndex in archive && archive[segment.firstIndex] == full[LastBaseOf(full)..]
    requires LiveOk(full, live, cut) && SnapOk(f, exec, full, snap, snapAt) && ArchiveOk(f, exec, full, archive)
    ensures HistoryOk(f, exec, full + [r]) && LiveOk(full + [r], live + [r], cut) && SnapOk(f, exec, full + [r], snap, snapAt)
    ensures ArchiveOk(f, exec, full + [r], archive)
  {
    hide FoldRecs, HistoryOk, LiveOk, SnapOk, ArchiveOk, LastBaseOf, Carries;
    ContinuedHistory(f, exec, full, r, segment);
    LiveGrows(full, [r], live, cut);
    SnapStays(f, exec, full, [r], snap, snapAt);
    SegmentsGrow(f, exec, full, r, segment, archive);
  }

  /** The live log ends where the history does: its last sequence is that of position k only when k is the end. */
  lemma {:induction false} HeadIsLast(full: seq<Rec>, live: seq<Rec>, cut: nat, k: nat)
    requires LiveOk(full, live, cut) && 0 < k <= |full| && Whole(full, k) && Sorted(full)
    ensures |live| > 0 && live[|live| - 1] == full[|full| - 1]
    ensures full[|full| - 1].at == full[k - 1].at ==> k == |full|
  {
  }

  lemma {:induction false} ContinuedState(f: Flow, exec: string, full: seq<Rec>, k: nat, st: State)
    requires HistoryOk(f, exec, full) && |full| == k + 1 && StateAt(f, exec, full, k) == Some(st) && IsContinued(full[k])
    requires full[k].ev.body.life.state == st.(book := st.book.(segments := full[k].ev.body.life.state.book.segments))
    ensures Apply(f, st, full[k].ev).Some?
    ensures StateAt(f, exec, full, k + 1) == ApplyRec(f, st, full[k])
    ensures StateAt(f, exec, full, k + 1).Some?
    ensures var s := StateAt(f, exec, full, k + 1).value; s == st.(book := s.book)
  {
    hide FoldRecs, StateAt;
    StateStep(f, exec, full, k);
  }

  lemma ContinuationIsBase(full: seq<Rec>)
    requires |full| > 0 && IsContinued(full[|full| - 1])
    ensures LastBaseOf(full) == |full| - 1
  {
  }
}
