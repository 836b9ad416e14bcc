/** The commands that drive an execution: which are refused, and which have nothing to do. */
module Commands {
  import opened Values
  import opened Flows
  import opened Fold
  import opened Guards
  import opened ControlSteps
  import opened Outcomes

  /** One attempt of a task instance. */
  datatype TaskRef = TaskRef(key: Key, generation: nat, attempt: nat)

  datatype Command =
    | StartCmd(flow: string, input: Json)
    | CompleteCmd(ref: TaskRef, output: Json, writes: map<string, Json>, to: string, usage: map<string, real>)
    | FailCmd(ref: TaskRef, retryable: bool, reason: Option<Reason>, usage: map<string, real>)
    | InterruptCmd(ref: TaskRef, payload: Json, usage: map<string, real>)
    | ResumeCmd(node: string, key: Option<Key>, value: Json, who: string)
    | SignalCmd(name: string, validName: bool, payload: Json)
    | CancelCmd(why: string)
    | TimerCmd(timerId: nat)
    | ChildDoneCmd(childId: ChildId, completed: bool, output: Json, counters: map<string, real>)
    | UpdateCmd(writes: map<string, Json>)

  datatype Error = NotFound | Invalid | Rejected | Conflict

  predicate Refers(c: Control, r: TaskRef) { IsCurrent(c, r.key, r.generation, r.attempt) }

  /** Instance k is interrupted and is the one a resume names, by key or by node. */
  predicate Resumes(c: Control, k: Key, node: string, key: Option<Key>)
    requires k in c.tasks
  {
    && c.tasks[k].status.TaskInterrupted?
    && (key == Some(k) || (key.None? && c.tasks[k].node == node))
  }

  predicate HasChild(c: Control, id: ChildId) { exists k | k in c.children :: c.children[k].id == id }

  /** Why command c with the given id is refused in state s, if it is. */
  function Refused(f: Flow, s: State, id: string, c: Command): Option<Error> {
    if c.StartCmd? then
      if Exists(s) then (if s.flow == c.flow then None else Some(Conflict))
      else if c.input.Null? || c.input.Obj? then None
      else Some(Invalid)
    else if !Exists(s) then Some(NotFound)
    else if Terminal(s.phase) then (if c.UpdateCmd? then Some(Rejected) else None)
    else
      match c
      case SignalCmd(_, validName, _) => if validName then None else Some(Invalid)
      case UpdateCmd(writes) =>
        if |writes| > 0 && (id in s.data.updateIds || Declared(f, s.data, writes)) then None else Some(Invalid)
      case _ => None
  }

  /** Command c, not refused in state s, is stale, late or delivered before: it changes nothing. */
  predicate Ignored(s: State, id: string, c: Command) {
    || (Exists(s) && Terminal(s.phase))
    || (match c
        case StartCmd(_, _) => Exists(s)
        case CompleteCmd(ref, _, _, _, _) => !Refers(s.ctl, ref)
        case FailCmd(ref, _, _, _) => !Refers(s.ctl, ref)
        case InterruptCmd(ref, _, _) => !Refers(s.ctl, ref)
        case ResumeCmd(node, key, _, _) => forall k | k in s.ctl.tasks :: !Resumes(s.ctl, k, node, key)
        case SignalCmd(_, _, _) => id in s.data.signalIds
        case CancelCmd(_) => false
        case TimerCmd(timerId) => timerId !in s.ctl.timers
        case ChildDoneCmd(childId, _, _, _) => !HasChild(s.ctl, childId)
        case UpdateCmd(_) => id in s.data.updateIds)
  }

  /** A completion that is recorded as such: anything else is a failure of the attempt. */
  predicate Accepted(f: Flow, s: State, t: Task, output: Json, writes: map<string, Json>, to: string)
    requires t.node in f.byId
  {
    && (output.Null? || (output.Obj? && f.byId[t.node].outputOk(output)))
    && Declared(f, s.data, writes) && (to == "" || (t.owner == "" && to in f.byId[t.node].dynamic))
  }

  /** Only an output that does not fit its schema is worth another attempt. */
  predicate Fixable(f: Flow, s: State, t: Task, output: Json, writes: map<string, Json>, to: string)
    requires t.node in f.byId
  {
    && output.Obj? && !f.byId[t.node].outputOk(output)
    && Declared(f, s.data, writes) && (to == "" || (t.owner == "" && to in f.byId[t.node].dynamic))
  }

  /** A failed attempt is retried while attempts and budget last. */
  function FailureOf(f: Flow, s: State, key: Key, retryable: bool, reason: Reason, usage: map<string, real>): NodeEvent
    requires key in s.ctl.tasks && s.ctl.tasks[key].node in f.byId
  {
    var t := s.ctl.tasks[key];
    NodeFail(key, t.node, t.generation, t.attempt, reason,
             retryable && t.attempt < MaxAttempts(f.byId[t.node]) && WithinBudget(f, s.data.counters, usage), usage)
  }

  /** What follows when pending timer id fires in state s, if it still serves an attempt or await. */
  function Due(f: Flow, s: State, id: nat): Option<Body>
    requires id in s.ctl.timers
  {
    match s.ctl.timers[id]
    case RetryTimer(_, key, generation, attempt) =>
      if key in s.ctl.tasks && s.ctl.tasks[key].generation == generation && s.ctl.tasks[key].status.TaskRetrying?
         && s.ctl.tasks[key].attempt + 1 == attempt && s.ctl.tasks[key].node in f.byId then
        var t := s.ctl.tasks[key];
        Some(OfNode(Attempt(f.byId[t.node], key, t.owner, t.index, t.item, t.resume, t.resumedBy, generation, attempt)))
      else None
    case TimeoutTimer(_, key, generation, attempt) =>
      if IsCurrent(s.ctl, key, generation, attempt) && s.ctl.tasks[key].node in f.byId then
        Some(OfNode(FailureOf(f, s, key, true, ReasonTimeout, map[])))
      else None
    case AwaitTimer(_, node) =>
      if node in s.ctl.awaits && s.ctl.awaits[node].timer == id && node in f.byId then
        Some(OfWait(AwaitTimedOut(node, f.byId[node].onTimeout)))
      else None
  }

  /** The second of the events is what is due when timer id fires; without it the first is the only one. */
  predicate Fires(f: Flow, s: State, id: nat, evs: seq<Event>) {
    id in s.ctl.timers ==>
      match Due(f, s, id)
      case Some(b) => |evs| > 1 && evs[1].body == b
      case None => |evs| == 1
  }

  /** Event b is what command c, neither refused nor ignored in state s, records first. */
  predicate Answers(f: Flow, s: State, id: string, c: Command, b: Body) {
    match c
    case StartCmd(_, input) => b == OfLife(Started(s.exec, f.name, if input.Null? then Obj(map[]) else input))
    case CompleteCmd(r, output, writes, to, usage) =>
      && r.key in s.ctl.tasks && s.ctl.tasks[r.key].node in f.byId
      && (var t := s.ctl.tasks[r.key];
          b == OfNode(if Accepted(f, s, t, output, writes, to) then
                        NodeDone(r.key, t.node, r.generation, r.attempt, output, writes, to, usage)
                      else FailureOf(f, s, r.key, Fixable(f, s, t, output, writes, to), ReasonInvalidOutput, usage)))
    case FailCmd(r, retryable, reason, usage) =>
      && r.key in s.ctl.tasks && s.ctl.tasks[r.key].node in f.byId
      && b == OfNode(FailureOf(f, s, r.key, retryable, if reason.None? then ReasonError else reason.value, usage))
    case InterruptCmd(r, payload, usage) =>
      r.key in s.ctl.tasks && b == OfNode(Interrupted(r.key, s.ctl.tasks[r.key].node, r.generation, payload, usage))
    case ResumeCmd(node, key, value, who) =>
      && b.OfNode? && b.work.Scheduled? && b.work.key in s.ctl.tasks && Resumes(s.ctl, b.work.key, node, key)
      && b.work.generation == s.ctl.n + 1 && b.work.attempt == 1
      && b.work.resume == Some(value) && b.work.resumedBy == who
    case SignalCmd(name, _, payload) => b == OfWait(SignalReceived(name, id, payload))
    case CancelCmd(why) => b == OfLife(ExecutionCancelled(why, Cancellable(s)))
    case TimerCmd(timerId) => b == OfWait(TimerFired(timerId))
    case ChildDoneCmd(childId, completed, output, counters) =>
      && b.OfWait? && b.wait.ChildDone? && b.wait.key in s.ctl.children
      && b.wait == ChildDone(b.wait.key, s.ctl.children[b.wait.key].node, childId, completed, output, counters)
    case UpdateCmd(writes) => b == OfNode(ChannelsUpdated(id, writes))
  }
}
