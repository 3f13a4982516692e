/**
  The whole voice-session protocol as one step relation: the guild registry with
  the dispatcher of global events, the call workers and the voice tasks, joined by
  bounded channels. Steps of the components interleave arbitrarily, and every
  event a voice task can see may arrive at any time.

  A subscription is the receiving end of one guild's event channel, named by its
  position in `subs`. A voice task carries its run so far, one `Step` for each
  event of `history`.
 */
module Session {
  import opened ConnectInfo
  import opened VoiceTask

  const CHANNEL_CAPACITY: nat := 32

  /** `since` is how much of the global log had gone by when the subscription was made. */
  datatype Subscription = Subscription(guild: nat, since: nat, queue: seq<GlobalEvent>, got: seq<GlobalEvent>)

  datatype Worker =
    | Preparing(rx: nat)
    | Talking(task: nat)
    | Leaving(task: nat)
    | Ended

  /**
    `flushed` of the task's emitted events have been put into its event channel and `taken`
    of them have been read; `open` says whether the worker still holds the receiving end.
   */
  datatype Task = Task(
    rx: nat, joined: bool, history: seq<Input>, run: Run,
    flushed: nat, taken: nat, open: bool)
  {
    function After(me: nat, input: Input): Task {
      this.(history := history + [input], run := Step(me, run, input))
    }
  }

  /** `blocked`: the dispatcher is waiting, lock in hand, to deliver the last event of the log. */
  datatype System = System(
    me: nat,
    log: seq<(nat, GlobalEvent)>,
    blocked: bool,
    registry: map<nat, nat>,
    subs: seq<Subscription>,
    workers: seq<Worker>,
    tasks: seq<Task>,
    answers: seq<nat>)

  datatype Action =
    | PrepareCall(guild: nat, encoderCreated: bool)
    | Dispatch(to: nat, event: GlobalEvent)
    | Unblock
    | JoinChannel(joiner: nat, accepted: bool)
    | Receive(receiver: nat)
    | HandleOther(handler: nat, input: Input)
    | Flush(emitter: nat)
    | TakeEvent(taker: nat)
    | HangUp(caller: nat)
    | LeaveDone(leaver: nat)
    | EndWorker(ender: nat)

  function Emits(trace: seq<Effect>): seq<VoiceEvent> {
    if trace == [] then []
    else
      var rest, e := Emits(trace[..|trace| - 1]), trace[|trace| - 1];
      if e.Emit? then rest + [e.event] else rest
  }

  function EmittedBy(t: Task): seq<VoiceEvent> {
    Emits(t.run.runner.trace)
  }

  /** The task may handle its next event: it is running and not stuck sending an event. */
  predicate CanHandle(t: Task) {
    t.run.status == Running && t.flushed == |EmittedBy(t)|
  }

  /** The task has returned, so what it owned is dropped. */
  predicate Done(t: Task) {
    t.run.status != Running && t.flushed == |EmittedBy(t)|
  }

  predicate HeldByWorker(s: System, r: nat) {
    Preparing(r) in s.workers
  }

  ghost predicate HeldByTask(s: System, r: nat) {
    exists t :: 0 <= t < |s.tasks| && s.tasks[t].rx == r && !Done(s.tasks[t])
  }

  /** The subscription's receiver has not been dropped. */
  ghost predicate Live(s: System, r: nat) {
    HeldByWorker(s, r) || HeldByTask(s, r)
  }

  /** A guild's part of the log. */
  function GuildEvents(log: seq<(nat, GlobalEvent)>, guild: nat): seq<GlobalEvent> {
    if log == [] then []
    else
      var rest, e := GuildEvents(log[..|log| - 1], guild), log[|log| - 1];
      if e.0 == guild then rest + [e.1] else rest
  }

  // Steps

  /** The worker is in its loop: it has not been told to hang up and has not ended. */
  predicate InLoop(s: System, w: nat) {
    w < |s.workers| && (s.workers[w].Preparing? || s.workers[w].Talking?)
  }

  /** Registry entries are sending ends of subscriptions that were made: true in every reachable state. */
  predicate NamesExist(s: System) {
    forall g :: g in s.registry ==> s.registry[g] < |s.subs|
  }

  ghost predicate Enabled(s: System, a: Action) {
    match a
    case PrepareCall(_, _) => !s.blocked
    case Dispatch(_, _) => !s.blocked
    case Unblock =>
      && s.blocked && s.log != [] && s.log[|s.log| - 1].0 in s.registry
      && var r := s.registry[s.log[|s.log| - 1].0];
         r < |s.subs| && (Live(s, r) ==> |s.subs[r].queue| < CHANNEL_CAPACITY)
    case JoinChannel(w, _) => w < |s.workers| && s.workers[w].Preparing?
    case Receive(t) =>
      && t < |s.tasks| && CanHandle(s.tasks[t])
      && s.tasks[t].rx < |s.subs| && s.subs[s.tasks[t].rx].queue != []
    case HandleOther(t, input) => t < |s.tasks| && CanHandle(s.tasks[t]) && !input.Global?
    case Flush(t) =>
      && t < |s.tasks| && s.tasks[t].flushed < |EmittedBy(s.tasks[t])|
      && (s.tasks[t].open ==> s.tasks[t].flushed - s.tasks[t].taken < CHANNEL_CAPACITY)
    case TakeEvent(w) =>
      && w < |s.workers| && s.workers[w].Talking? && s.workers[w].task < |s.tasks|
      && var t := s.tasks[s.workers[w].task];
         t.open && t.taken < t.flushed <= |EmittedBy(t)|
    case HangUp(w) => InLoop(s, w)
    case LeaveDone(w) =>
      && w < |s.workers| && s.workers[w].Leaving? && s.workers[w].task < |s.tasks|
      && Done(s.tasks[s.workers[w].task])
    case EndWorker(w) => InLoop(s, w)
  }

  /** `exclusive_server_events` turns the caller away. */
  ghost predicate Refused(s: System, guild: nat) {
    guild in s.registry && Live(s, s.registry[guild])
  }

  ghost function Deliver(s: System, guild: nat, event: GlobalEvent): System
    requires guild in s.registry ==> s.registry[guild] < |s.subs|
  {
    if guild !in s.registry then s.(blocked := false)
    else
      var r := s.registry[guild];
      if !Live(s, r) then s.(registry := s.registry - {guild}, blocked := false)
      else if |s.subs[r].queue| < CHANNEL_CAPACITY then
        s.(subs := s.subs[r := s.subs[r].(queue := s.subs[r].queue + [event])], blocked := false)
      else s.(blocked := true)
  }

  function SetTask(s: System, t: nat, task: Task): System
    requires t < |s.tasks|
  {
    s.(tasks := s.tasks[t := task])
  }

  function SetWorker(s: System, w: nat, worker: Worker): System
    requires w < |s.workers|
  {
    s.(workers := s.workers[w := worker])
  }

  /** Dropping a worker closes the event channel of the task it was talking to, if any. */
  function DropWorker(s: System, w: nat): System
    requires w < |s.workers|
  {
    match s.workers[w]
    case Talking(t) =>
      if t < |s.tasks| then SetWorker(SetTask(s, t, s.tasks[t].(open := false)), w, Ended) else SetWorker(s, w, Ended)
    case _ => SetWorker(s, w, Ended)
  }

  ghost function Apply(s: System, a: Action): System
    requires NamesExist(s) && Enabled(s, a)
  {
    match a
    case PrepareCall(guild, created) =>
      if Refused(s, guild) then s
      else
        s.(registry := s.registry[guild := |s.subs|],
           subs := s.subs + [Subscription(guild, |s.log|, [], [])],
           workers := if created then s.workers + [Preparing(|s.subs|)] else s.workers)
    case Dispatch(guild, event) => Deliver(s.(log := s.log + [(guild, event)]), guild, event)
    case Unblock => Deliver(s, s.log[|s.log| - 1].0, s.log[|s.log| - 1].1)
    case JoinChannel(w, accepted) =>
      SetWorker(s.(tasks := s.tasks + [Task(s.workers[w].rx, accepted, [], Begin(accepted), 0, 0, true)]), w, Talking(|s.tasks|))
    case Receive(t) =>
      var task := s.tasks[t];
      var sub := s.subs[task.rx];
      SetTask(s, t, task.After(s.me, Global(sub.queue[0])))
        .(subs := s.subs[task.rx := sub.(queue := sub.queue[1..], got := sub.got + [sub.queue[0]])])
    case HandleOther(t, input) => SetTask(s, t, s.tasks[t].After(s.me, input))
    case Flush(t) =>
      SetTask(s, t, s.tasks[t].(flushed := s.tasks[t].flushed + 1))
    case TakeEvent(w) =>
      var t := s.workers[w].task;
      var event := EmittedBy(s.tasks[t])[s.tasks[t].taken];
      var read := SetTask(s, t, s.tasks[t].(taken := s.tasks[t].taken + 1));
      if event == FullyConnected then read.(answers := s.answers + [t])
      else if event == Closed then DropWorker(read, w)
      else read
    case HangUp(w) =>
      if s.workers[w].Talking? then SetWorker(s, w, Leaving(s.workers[w].task)) else SetWorker(s, w, Ended)
    case LeaveDone(w) =>
      var t := s.workers[w].task;
      SetWorker(SetTask(s, t, s.tasks[t].(open := false)), w, Ended)
    case EndWorker(w) => DropWorker(s, w)
  }

  /** A task has panicked, which ends the whole process. */
  ghost predicate Aborted(s: System) {
    exists t :: 0 <= t < |s.tasks| && s.tasks[t].run.status == Panicked
  }

  /** The state after a run of enabled steps from a process that has just started. */
  ghost predicate Reaches(me: nat, actions: seq<Action>, s: System) {
    if actions == [] then s == System(me, [], false, map[], [], [], [], [])
    else
      var n := |actions| - 1;
      exists before :: Reaches(me, actions[..n], before) && NamesExist(before) && !Aborted(before)
                    && Enabled(before, actions[n]) && s == Apply(before, actions[n])
  }
}
