/** A signal id used again: a legal history in which an await gets the payload of a signal of another name. */
module Reuse {
  import opened Values
  import opened Flows
  import opened Fold
  import opened Invariants
  import opened Guards
  import opened Ledgers
  import Memory

  /** A flow that awaits signal "y". */
  const WAITING := Node("n", AwaitNode, "", "", 2 * Memory.WINDOW, None, _ => true, [], [], false, [], [], JoinAll, "y", "",
                        _ => None, 0, "", None, false)

  const WAITING_FLOW := Flow("f", "", [WAITING], map[], map[], 0, None, map["n" := WAITING], "n", map[], map[])

  const FOR_X := Signal("x", "id", Str("for x"))
  const FOR_Z := Signal("z", "other", Null)
  const FOR_Y := Signal("y", "id", Str("for y"))

  const DAY_LATER := Memory.WINDOW + 1

  /** While the execution waits, "x" arrives under an id; a day later "z", which makes the memory of ids forget it; and then
      "y" under the same id. */
  function BodyAt(i: nat): Body
    requires i < 8
  {
    if i == 0 then OfLife(Started("a", "f", Obj(map[])))
    else if i == 1 then OfLife(Entered("n"))
    else if i == 2 then OfWait(AwaitStarted("n", "y", 1))
    else if i == 3 then OfWait(TimerSet(1, AwaitTimer(2 * Memory.WINDOW, "n")))
    else if i == 4 then OfWait(SignalReceived(FOR_X.name, FOR_X.id, FOR_X.payload))
    else if i == 5 then OfWait(SignalReceived(FOR_Z.name, FOR_Z.id, FOR_Z.payload))
    else if i == 6 then OfWait(SignalReceived(FOR_Y.name, FOR_Y.id, FOR_Y.payload))
    else OfWait(SignalConsumed("n", "y", "id"))
  }

  function TimeAt(i: nat): int { if i < 5 then 0 else DAY_LATER }

  const WAITS_DATA := EMPTY_DATA.(visits := map["n" := 1], steps := 1)
  const WAITS_CONTROL :=
    EMPTY_CONTROL.(awaits := map["n" := Await("y", 1)], timers := map[1 := AwaitTimer(2 * Memory.WINDOW, "n")], n := 1)

  function Live(events: nat, data: Data, ctl: Control): State {
    State("a", "f", Phase.Live, Obj(map[]), data, ctl, Book(events, 0, [], "", 0), Null, None)
  }

  function Waits(events: nat, buffered: seq<Signal>, ids: map<string, int>): State {
    Live(events, WAITS_DATA.(buffered := buffered, signalIds := ids), WAITS_CONTROL)
  }

  function SeenX(): map<string, int> { Memory.Remember(map[], "id", 0) }

  function SeenZ(): map<string, int> { Memory.Remember(SeenX(), "other", DAY_LATER) }

  function SeenY(): map<string, int> { Memory.Remember(SeenZ(), "id", DAY_LATER) }

  function StateOf(n: nat): State
    requires n <= 8
  {
    if n == 0 then New("a")
    else if n == 1 then Live(1, EMPTY_DATA, EMPTY_CONTROL)
    else if n == 2 then Live(2, WAITS_DATA, EMPTY_CONTROL)
    else if n == 3 then Live(3, WAITS_DATA, EMPTY_CONTROL.(awaits := map["n" := Await("y", 1)]))
    else if n == 4 then Waits(4, [], map[])
    else if n == 5 then Waits(5, [FOR_X], SeenX())
    else if n == 6 then Waits(6, [FOR_X, FOR_Z], SeenZ())
    else if n == 7 then Waits(7, [FOR_X, FOR_Z, FOR_Y], SeenY())
    else
      Live(8, WAITS_DATA.(buffered := [FOR_Z, FOR_Y], signalIds := SeenY(), signals := map["y" := Str("for x")],
                          results := map["n" := Str("for x")], lastNode := "n"), EMPTY_CONTROL.(n := 1))
  }

  function EventsTo(n: nat): (evs: seq<Event>)
    requires n <= 8
    ensures |evs| == n && forall i :: 0 <= i < n ==> evs[i] == Event(i + 1, TimeAt(i), "", BodyAt(i))
  {
    seq(n, i requires 0 <= i < n => Event(i + 1, TimeAt(i), "", BodyAt(i)))
  }

  /** Event i takes the execution from state i to the next, legally. */
  ghost predicate Link(i: nat)
    requires i < 8
  {
    && Guard(WAITING_FLOW, StateOf(i), BodyAt(i)) && Follows(WAITING_FLOW, EventsTo(i), StateOf(i), BodyAt(i))
    && Timely(WAITING_FLOW, TimeAt(i), BodyAt(i)) && ExpectedIndex(StateOf(i), BodyAt(i)) == i + 1
    && After(WAITING_FLOW, StateOf(i), BodyAt(i), TimeAt(i)) == StateOf(i + 1)
  }

  lemma StartLink(f: Flow, exec: string, flow: string, input: Json, time: int)
    requires input.Obj? && Defaults(f) == map[]
    ensures var s, b := New(exec), OfLife(Started(exec, flow, input));
            && Guard(f, s, b) && Follows(f, [], s, b) && ExpectedIndex(s, b) == 1
            && After(f, s, b, time) == s.(flow := flow, input := input, phase := Phase.Live, book := s.book.(events := 1))
  {
    hide NodeGuard, GraphGuard, WaitGuard, EnterGuard, Boundary, FlowOutput, LedTo, Justified, ControlStep, DataStep, Defaults;
  }

  lemma Starts()
    ensures Link(0)
  {
    hide Guard, Follows, After, ExpectedIndex;
    assert EventsTo(0) == [];
    hide EventsTo;
    assert Defaults(WAITING_FLOW) == map[];
    StartLink(WAITING_FLOW, "a", "f", Obj(map[]), 0);
  }

  lemma EnterLink(f: Flow, before: seq<Event>, s: State, node: string, time: int)
    requires Running(s) && EnterGuard(f, s, node) && LedTo(f, before, node)
    ensures var b := OfLife(Entered(node));
            && Guard(f, s, b) && Follows(f, before, s, b) && ExpectedIndex(s, b) == s.book.events + 1
            && After(f, s, b, time) == s.(data := LifeData(s.data, Entered(node)), book := s.book.(events := s.book.events + 1))
  {
    hide NodeGuard, GraphGuard, WaitGuard, EnterGuard, Boundary, FlowOutput, LedTo, Justified, LifeData;
  }

  lemma LedToN()
    ensures LedTo(WAITING_FLOW, EventsTo(1), "n")
  {
    hide NodeLeads, GraphLeads, WaitLeads;
    assert EventsTo(1)[0].body == BodyAt(0);
  }

  lemma MayEnter()
    ensures EnterGuard(WAITING_FLOW, StateOf(1), "n")
  {
    hide EntersFan;
  }

  lemma Enters()
    ensures Link(1)
  {
    hide Guard, Follows, After, ExpectedIndex, EnterGuard, LedTo;
    LedToN();
    MayEnter();
    hide EventsTo;
    EnterLink(WAITING_FLOW, EventsTo(1), StateOf(1), "n", 0);
  }

  /** The memory of ids has forgotten "id" when "y" arrives. */
  lemma Forgotten()
    ensures "other" !in SeenX() && "id" !in SeenZ()
  {
    hide Memory.Remember, Memory.Capped;
  }

  /** An event of the waiting part follows whatever precedes it. */
  lemma WaitLink(f: Flow, before: seq<Event>, s: State, e: WaitEvent, time: int)
    requires Running(s) && WaitGuard(f, s, e) && Timely(f, time, OfWait(e))
    ensures Guard(f, s, OfWait(e)) && Follows(f, before, s, OfWait(e)) && ExpectedIndex(s, OfWait(e)) == s.book.events + 1
    ensures After(f, s, OfWait(e), time)
         == s.(ctl := WaitControl(s.ctl, e), data := WaitData(s.data, s.ctl, e, time),
               book := s.book.(events := s.book.events + 1))
  {
    hide WaitGuard, NodeGuard, GraphGuard, LifeGuard, WaitControl, WaitData, Timely;
  }

  /** What a wait event has to meet for its link. */
  predicate Step(i: nat)
    requires 2 <= i < 8
  {
    var s, e := StateOf(i), BodyAt(i).wait;
    && Running(s) && WaitGuard(WAITING_FLOW, s, e) && Timely(WAITING_FLOW, TimeAt(i), OfWait(e)) && s.book.events == i
    && WaitControl(s.ctl, e) == StateOf(i + 1).ctl && WaitData(s.data, s.ctl, e, TimeAt(i)) == StateOf(i + 1).data
    && StateOf(i + 1) == s.(ctl := StateOf(i + 1).ctl, data := StateOf(i + 1).data,
                            book := s.book.(events := s.book.events + 1))
  }

  lemma Opens()
    ensures Step(2) && Step(3)
  {
  }

  lemma Arrives()
    ensures Step(4)
  {
    hide Memory.Remember;
  }

  lemma ArrivesLater()
    ensures Step(5)
  {
    Forgotten();
    hide Memory.Remember, SeenX;
  }

  lemma ArrivesAgain()
    ensures Step(6)
  {
    Forgotten();
    hide Memory.Remember, SeenZ;
  }

  lemma TakesFirst()
    ensures var buf := [FOR_X, FOR_Z, FOR_Y];
            && FirstNamed(buf, "y") == 2 && FirstId(buf, "id") == 0 && buf[..0] + buf[1..] == [FOR_Z, FOR_Y]
  {
    hide FirstNamed, FirstId;
    var buf := [FOR_X, FOR_Z, FOR_Y];
    assert buf[0] == FOR_X && buf[1] == FOR_Z && buf[2] == FOR_Y;
    assert FOR_X.name != "y" && FOR_Z.name != "y" && FOR_Y.name == "y" && FOR_X.id == "id";
  }

  lemma Takes()
    ensures Step(7)
  {
    hide SeenY, WaitGuard, WaitControl, WaitData, Delay;
    TakesGuard(StateOf(7));
    TakesControl();
    TakesData(StateOf(7).data, StateOf(7).ctl, TimeAt(7));
  }

  lemma TakesGuard(s: State)
    requires s.ctl == WAITS_CONTROL && s.data.buffered == [FOR_X, FOR_Z, FOR_Y]
    ensures WaitGuard(WAITING_FLOW, s, SignalConsumed("n", "y", "id"))
  {
    hide ChildGuard, ChildInput, ItemInRange, InBudget, Free, FirstNamed;
    TakesFirst();
  }

  lemma TakesControl()
    ensures WaitControl(WAITS_CONTROL, SignalConsumed("n", "y", "id")) == EMPTY_CONTROL.(n := 1)
  {
    hide ChildSettled, ItemStarted;
  }

  lemma TakesData(d: Data, c: Control, time: int)
    requires d.buffered == [FOR_X, FOR_Z, FOR_Y]
    ensures WaitData(d, c, SignalConsumed("n", "y", "id"), time)
         == d.(buffered := [FOR_Z, FOR_Y], signals := d.signals["y" := Str("for x")], results := d.results["n" := Str("for x")],
               lastNode := "n")
  {
    hide FirstId, FirstNamed, AddUsage, IsItem;
    TakesFirst();
  }

  lemma Waited(i: nat)
    requires 2 <= i < 8 && Step(i)
    ensures Link(i)
  {
    hide Guard, Follows, WaitGuard, Timely, WaitControl, WaitData, After, ExpectedIndex, StateOf, EventsTo;
    WaitLink(WAITING_FLOW, EventsTo(i), StateOf(i), BodyAt(i).wait, TimeAt(i));
  }

  lemma AllSteps(i: nat)
    requires 2 <= i < 8
    ensures Step(i)
  {
    hide Step;
    if i < 4 {
      Opens();
    } else if i == 4 {
      Arrives();
    } else if i == 5 {
      ArrivesLater();
    } else if i == 6 {
      ArrivesAgain();
    } else {
      Takes();
    }
  }

  lemma AllLinked(i: nat)
    requires i < 8
    ensures Link(i)
  {
    hide Link, Step;
    if i == 0 {
      Starts();
    } else if i == 1 {
      Enters();
    } else {
      AllSteps(i);
      Waited(i);
    }
  }

  lemma {:induction false} LegalTo(n: nat)
    requires n <= 8
    ensures Legal(WAITING_FLOW, New("a"), EventsTo(n))
    ensures FoldAll(WAITING_FLOW, New("a"), EventsTo(n)) == Some(StateOf(n))
    decreases n
  {
    hide Guard, Follows, Timely, After, ExpectedIndex, BodyAt, TimeAt;
    if n == 0 {
      assert EventsTo(0) == [];
    } else {
      hide StateOf, Legal, FoldAll;
      LegalTo(n - 1);
      AllLinked(n - 1);
      assert EventsTo(n) == EventsTo(n - 1) + [EventsTo(n)[n - 1]];
      LegalSnoc(WAITING_FLOW, New("a"), EventsTo(n - 1), StateOf(n - 1), EventsTo(n)[n - 1]);
    }
  }

  lemma WaitingSound()
    ensures Sound(WAITING_FLOW)
  {
  }

  /** With an id used again an await gets the payload of a signal of another name: in a legal history of a sound flow await
      "n" of "y" gets what was sent as "x", and the signal "y" stays buffered. */
  lemma ReuseTakesWrong()
    ensures Sound(WAITING_FLOW) && Legal(WAITING_FLOW, New("a"), EventsTo(8))
    ensures !Straight(WAITING_FLOW, New("a"), EventsTo(8))
    ensures var s := FoldAll(WAITING_FLOW, New("a"), EventsTo(8));
            && s.Some? && "n" in s.value.data.results && s.value.data.results["n"] == FOR_X.payload
            && FOR_Y in s.value.data.buffered
  {
    hide Legal, FoldAll, Sound, Guard, Follows, SeenX, SeenY, SeenZ, NoneAhead, BodyAt;
    WaitingSound();
    LegalTo(8);
    LegalTo(7);
    assert EventsTo(8)[..7] == EventsTo(7);
    hide EventsTo;
    assert StateOf(8).data.buffered[1] == FOR_Y;
    AheadOfY(StateOf(7).data);
    assert !NoneAheadAt(WAITING_FLOW, New("a"), EventsTo(8), 7);
  }

  lemma AheadOfY(d: Data)
    requires d.buffered == [FOR_X, FOR_Z, FOR_Y]
    ensures !NoneAhead(d, BodyAt(7))
  {
    hide FirstNamed;
    TakesFirst();
    assert d.buffered[0].id == "id";
  }
}
