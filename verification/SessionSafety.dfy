/** What holds in every reachable state of the voice-session protocol. */
module SessionSafety {
  import opened ConnectInfo
  import opened VoiceTask
  import opened VoiceTaskSafety
  import opened Session

  // The invariant, clause by clause

  ghost predicate TaskBounds(t: Task) {
    && t.taken <= t.flushed <= |EmittedBy(t)|
    && (t.open ==> t.flushed - t.taken <= CHANNEL_CAPACITY)
  }

  /** Names refer to things that exist, and no channel holds more than its capacity. */
  ghost predicate Bounds(s: System) {
    && NamesExist(s)
    && (forall r: nat :: Preparing(r) in s.workers ==> r < |s.subs|)
    && (forall t :: 0 <= t < |s.tasks| ==> s.tasks[t].rx < |s.subs|)
    && (forall t :: 0 <= t < |s.tasks| ==> TaskBounds(s.tasks[t]))
    && (forall r :: 0 <= r < |s.subs| ==> s.subs[r].since <= |s.log| && |s.subs[r].queue| <= CHANNEL_CAPACITY)
  }

  /** The run a task carries is the run of the events it has handled. */
  ghost predicate Faithful(me: nat, t: Task) {
    && t.run == Execute(me, t.joined, t.history)
    && (t.joined || t.history == [])
  }

  ghost predicate FaithfulTasks(s: System) {
    forall t :: 0 <= t < |s.tasks| ==> Faithful(s.me, s.tasks[t])
  }

  /** A receiver belongs to one worker that is still preparing or to one voice task, never to two of them. */
  ghost predicate SingleOwner(s: System) {
    && (forall w, v :: 0 <= w < v < |s.workers| && s.workers[w].Preparing? ==> s.workers[w] != s.workers[v])
    && (forall t, u :: 0 <= t < u < |s.tasks| ==> s.tasks[t].rx != s.tasks[u].rx)
    && (forall t :: 0 <= t < |s.tasks| ==> Preparing(s.tasks[t].rx) !in s.workers)
  }

  /** The registry's entry for a guild is its live receiver. */
  ghost predicate Registered(s: System) {
    && (forall g :: g in s.registry && s.registry[g] < |s.subs| ==> s.subs[s.registry[g]].guild == g)
    && (forall r :: 0 <= r < |s.subs| && Live(s, r) ==>
          s.subs[r].guild in s.registry && s.registry[s.subs[r].guild] == r)
    && (s.blocked ==> s.log != [] && s.log[|s.log| - 1].0 in s.registry)
  }

  /** The guild's events since the subscription was made. */
  function Due(s: System, r: nat): seq<GlobalEvent>
    requires r < |s.subs| && s.subs[r].since <= |s.log|
  {
    GuildEvents(s.log[s.subs[r].since..], s.subs[r].guild)
  }

  /** The event the dispatcher is still holding for this receiver. */
  function Held(s: System, r: nat): seq<GlobalEvent> {
    if s.blocked && s.log != [] && s.log[|s.log| - 1].0 in s.registry && s.registry[s.log[|s.log| - 1].0] == r
    then [s.log[|s.log| - 1].1] else []
  }

  /** Nothing is lost, duplicated or reordered on the way to a receiver, and a live one misses nothing. */
  ghost predicate StreamOf(s: System, r: nat)
    requires r < |s.subs| && s.subs[r].since <= |s.log|
  {
    && s.subs[r].got + s.subs[r].queue <= Due(s, r)
    && (Live(s, r) ==> s.subs[r].got + s.subs[r].queue + Held(s, r) == Due(s, r))
  }

  ghost predicate Streams(s: System)
    requires Bounds(s)
  {
    forall r :: 0 <= r < |s.subs| ==> StreamOf(s, r)
  }

  /** What a task has handled from the global gateway is what its receiver handed out. */
  ghost predicate Consumed(s: System)
    requires Bounds(s)
  {
    && (forall t :: 0 <= t < |s.tasks| ==> Heard(s.me, s.tasks[t].history) == s.subs[s.tasks[t].rx].got)
    && (forall r :: 0 <= r < |s.subs| && Preparing(r) in s.workers ==> s.subs[r].got == [])
  }

  ghost predicate Answered(s: System) {
    forall a :: a in s.answers ==>
      a < |s.tasks| && s.tasks[a].joined && Emit(FullyConnected) in s.tasks[a].run.runner.trace
  }

  ghost predicate Invariant(s: System) {
    Bounds(s) && FaithfulTasks(s) && SingleOwner(s) && Registered(s) && Streams(s) && Consumed(s) && Answered(s)
  }

  // Preservation

  lemma {:induction false} EmitsAppend(a: seq<Effect>, b: seq<Effect>)
    ensures Emits(a + b) == Emits(a) + Emits(b)
    decreases |b|
  {
    if b == [] {
      assert a + b == a;
    } else {
      var n := |b| - 1;
      EmitsAppend(a, b[..n]);
      assert (a + b)[..|a + b| - 1] == a + b[..n];
    }
  }

  lemma {:induction false} EmitsMembers(trace: seq<Effect>, e: VoiceEvent)
    ensures e in Emits(trace) <==> Emit(e) in trace
  {
    if trace != [] {
      var n := |trace| - 1;
      EmitsMembers(trace[..n], e);
      assert trace == trace[..n] + [trace[n]];
    }
  }

  lemma TaskContinues(me: nat, t: Task, input: Input)
    requires CanHandle(t) && TaskBounds(t) && Faithful(me, t)
    ensures t.joined && Faithful(me, t.After(me, input))
    ensures TaskBounds(t.After(me, input))
    ensures t.run.runner.trace <= t.After(me, input).run.runner.trace
    ensures Heard(me, t.history + [input]) == Heard(me, t.history) + (if input.Global? then [input.global] else [])
  {
    var more := t.history + [input];
    assert more[..|t.history|] == t.history;
    EveryRun(me, t.history);
    StepContinues(me, t.run, input);
    var before, after := t.run.runner.trace, t.After(me, input).run.runner.trace;
    EmitsAppend(before, after[|before|..]);
    assert before + after[|before|..] == after;
  }

  // Steps that only move tasks and workers forward

  ghost predicate Progress(me: nat, t: Task, t': Task) {
    && t'.rx == t.rx && t'.joined == t.joined
    && (Done(t) ==> Done(t'))
    && (TaskBounds(t) ==> TaskBounds(t'))
    && (Faithful(me, t) ==> Faithful(me, t'))
    && Heard(me, t'.history) == Heard(me, t.history)
    && t.run.runner.trace <= t'.run.runner.trace
  }

  ghost predicate NewAnswer(s: System, a: nat) {
    a < |s.tasks| && s.tasks[a].joined && Emit(FullyConnected) in s.tasks[a].run.runner.trace
  }

  /** No subscription, registry entry or event is touched; a worker may stop preparing. */
  ghost predicate Quiet(s: System, s': System) {
    && s' == s.(workers := s'.workers, tasks := s'.tasks, answers := s'.answers)
    && |s'.workers| == |s.workers| && |s'.tasks| == |s.tasks|
    && (forall w :: 0 <= w < |s.workers| && s'.workers[w].Preparing? ==> s'.workers[w] == s.workers[w])
    && (forall t :: 0 <= t < |s.tasks| ==> Progress(s.me, s.tasks[t], s'.tasks[t]))
    && (forall a :: a in s'.answers ==> a in s.answers || NewAnswer(s', a))
  }

  lemma QuietPreparing(s: System, s': System, r: nat)
    requires Quiet(s, s') && Preparing(r) in s'.workers
    ensures Preparing(r) in s.workers
  {
    var w :| 0 <= w < |s'.workers| && s'.workers[w] == Preparing(r);
    assert s.workers[w] == Preparing(r);
  }

  lemma QuietLive(s: System, s': System, r: nat)
    requires Quiet(s, s') && Live(s', r)
    ensures Live(s, r)
  {
    if HeldByWorker(s', r) {
      QuietPreparing(s, s', r);
    } else {
      var t :| 0 <= t < |s'.tasks| && s'.tasks[t].rx == r && !Done(s'.tasks[t]);
      assert Progress(s.me, s.tasks[t], s'.tasks[t]);
      assert HeldByTask(s, r);
    }
  }

  /** A subscription whose stream is neither appended to nor owed anything keeps it. */
  lemma StreamFrame(s: System, s': System, r: nat)
    requires r < |s.subs| && r < |s'.subs| && s'.subs[r] == s.subs[r] && s'.log == s.log
    requires s.subs[r].since <= |s.log| && StreamOf(s, r)
    requires Live(s', r) ==> Live(s, r) && Held(s', r) == Held(s, r)
    ensures StreamOf(s', r)
  {
    assert Due(s', r) == Due(s, r);
  }

  lemma QuietOwners(s: System, s': System)
    requires Bounds(s) && SingleOwner(s) && Registered(s) && Quiet(s, s')
    ensures Bounds(s') && SingleOwner(s') && Registered(s')
  {
    forall r: nat | Preparing(r) in s'.workers
      ensures Preparing(r) in s.workers
    {
      QuietPreparing(s, s', r);
    }
    forall r: nat | Live(s', r)
      ensures Live(s, r)
    {
      QuietLive(s, s', r);
    }
    assert forall t :: 0 <= t < |s.tasks| ==> Progress(s.me, s.tasks[t], s'.tasks[t]);
  }

  lemma QuietStream(s: System, s': System, r: nat)
    requires Quiet(s, s') && r < |s.subs| && s.subs[r].since <= |s.log| && StreamOf(s, r)
    ensures StreamOf(s', r)
  {
    if Live(s', r) {
      QuietLive(s, s', r);
    }
    StreamFrame(s, s', r);
  }

  lemma QuietRuns(s: System, s': System)
    requires Bounds(s) && FaithfulTasks(s) && Consumed(s) && Quiet(s, s') && Bounds(s')
    ensures FaithfulTasks(s') && Consumed(s')
  {
    forall r: nat | Preparing(r) in s'.workers
      ensures Preparing(r) in s.workers
    {
      QuietPreparing(s, s', r);
    }
    assert forall t :: 0 <= t < |s.tasks| ==> Progress(s.me, s.tasks[t], s'.tasks[t]);
  }

  lemma QuietAnswered(s: System, s': System)
    requires Answered(s) && Quiet(s, s')
    ensures Answered(s')
  {
    forall a | a in s'.answers
      ensures NewAnswer(s', a)
    {
      if a in s.answers {
        assert Progress(s.me, s.tasks[a], s'.tasks[a]);
      }
    }
  }

  lemma QuietKeeps(s: System, s': System)
    requires Invariant(s) && Quiet(s, s')
    ensures Invariant(s')
  {
    QuietOwners(s, s');
    QuietRuns(s, s');
    QuietAnswered(s, s');
    forall r | 0 <= r < |s.subs|
      ensures StreamOf(s', r)
    {
      assert StreamOf(s, r);
      QuietStream(s, s', r);
    }
  }

  /** One task makes progress, workers may only stop preparing, and new answers are announced ones. */
  lemma OneTaskIsQuiet(s: System, s': System, t: nat)
    requires t < |s.tasks| == |s'.tasks| && Progress(s.me, s.tasks[t], s'.tasks[t])
    requires s' == SetTask(s, t, s'.tasks[t]).(workers := s'.workers, answers := s'.answers)
    requires |s'.workers| == |s.workers|
    requires forall w :: 0 <= w < |s.workers| && s'.workers[w].Preparing? ==> s'.workers[w] == s.workers[w]
    requires s'.answers == s.answers || (s'.answers == s.answers + [t] && NewAnswer(s', t))
    ensures Quiet(s, s')
  {
    forall k | 0 <= k < |s.tasks|
      ensures Progress(s.me, s.tasks[k], s'.tasks[k])
    {
      if k != t {
        assert s'.tasks[k] == s.tasks[k];
      }
    }
  }

  lemma HandleOtherIsQuiet(s: System, t: nat, input: Input)
    requires Invariant(s) && Enabled(s, HandleOther(t, input))
    ensures Quiet(s, Apply(s, HandleOther(t, input)))
  {
    TaskContinues(s.me, s.tasks[t], input);
    OneTaskIsQuiet(s, Apply(s, HandleOther(t, input)), t);
  }

  /** Changing only how far a task's events have travelled, in a way its bounds allow. */
  lemma MovedIsProgress(me: nat, t: Task, t': Task)
    requires t' == t.(flushed := t'.flushed, taken := t'.taken, open := t'.open)
    requires t.flushed <= t'.flushed && TaskBounds(t')
    ensures Progress(me, t, t')
  {
  }

  lemma FlushIsQuiet(s: System, t: nat)
    requires Invariant(s) && Enabled(s, Flush(t))
    ensures Quiet(s, Apply(s, Flush(t)))
  {
    MovedIsProgress(s.me, s.tasks[t], s.tasks[t].(flushed := s.tasks[t].flushed + 1));
    OneTaskIsQuiet(s, Apply(s, Flush(t)), t);
  }

  lemma AnnouncedByJoined(me: nat, t: Task)
    requires Faithful(me, t) && FullyConnected in EmittedBy(t)
    ensures t.joined && Emit(FullyConnected) in t.run.runner.trace
  {
    EmitsMembers(t.run.runner.trace, FullyConnected);
    RefusedJoin(me, t.history);
  }

  /** The reader's end of a task's event channel: one more event read, and the channel perhaps closed. */
  lemma ReadIsProgress(me: nat, t: Task)
    requires TaskBounds(t) && t.taken < t.flushed
    ensures Progress(me, t, t.(taken := t.taken + 1))
    ensures Progress(me, t, t.(taken := t.taken + 1, open := false))
    ensures Progress(me, t, t)
  {
    MovedIsProgress(me, t, t.(taken := t.taken + 1));
    MovedIsProgress(me, t, t.(taken := t.taken + 1, open := false));
  }

  /** The worker has read its task's next event, and may have answered the channel or ended over it. */
  ghost predicate TakenAs(s: System, s': System, w: nat, t: nat, event: VoiceEvent) {
    && t < |s.tasks| && w < |s.workers| && s.tasks[t].taken < s.tasks[t].flushed <= |EmittedBy(s.tasks[t])|
    && event == EmittedBy(s.tasks[t])[s.tasks[t].taken]
    && var read := s.tasks[t].(taken := s.tasks[t].taken + 1);
       s' == if event == Closed then s.(tasks := s.tasks[t := read.(open := false)], workers := s.workers[w := Ended])
             else s.(tasks := s.tasks[t := read], answers := s.answers + if event == FullyConnected then [t] else [])
  }

  lemma TakenByStep(s: System, w: nat)
    requires NamesExist(s) && Enabled(s, TakeEvent(w))
    ensures var t := s.workers[w].task; TakenAs(s, Apply(s, TakeEvent(w)), w, t, EmittedBy(s.tasks[t])[s.tasks[t].taken])
  {
  }

  lemma TakenIsQuiet(s: System, s': System, w: nat, t: nat, event: VoiceEvent)
    requires TakenAs(s, s', w, t, event) && TaskBounds(s.tasks[t]) && Faithful(s.me, s.tasks[t])
    ensures Quiet(s, s')
  {
    ReadIsProgress(s.me, s.tasks[t]);
    if event == FullyConnected {
      AnnouncedByJoined(s.me, s.tasks[t]);
    }
    OneTaskIsQuiet(s, s', t);
  }

  lemma TakeEventIsQuiet(s: System, w: nat)
    requires Invariant(s) && Enabled(s, TakeEvent(w))
    ensures Quiet(s, Apply(s, TakeEvent(w)))
  {
    var t := s.workers[w].task;
    TakenByStep(s, w);
    TakenIsQuiet(s, Apply(s, TakeEvent(w)), w, t, EmittedBy(s.tasks[t])[s.tasks[t].taken]);
  }

  /** The worker that takes one of these steps. */
  function Stepping(a: Action): nat
    requires a.HangUp? || a.LeaveDone? || a.EndWorker?
  {
    match a
    case HangUp(w) => w
    case LeaveDone(w) => w
    case EndWorker(w) => w
  }

  /** Hanging up, having left and ending change the one worker, which prepares no more, and close event channels at most. */
  ghost predicate OnlyStops(s: System, s': System, w: nat) {
    && s' == s.(workers := s'.workers, tasks := s'.tasks)
    && w < |s.workers| == |s'.workers| && |s'.tasks| == |s.tasks|
    && !s'.workers[w].Preparing? && s'.workers == s.workers[w := s'.workers[w]]
    && forall t :: 0 <= t < |s.tasks| ==> s'.tasks[t] == s.tasks[t] || s'.tasks[t] == s.tasks[t].(open := false)
  }

  lemma WorkerOnlyStops(s: System, a: Action)
    requires NamesExist(s) && Enabled(s, a) && (a.HangUp? || a.LeaveDone? || a.EndWorker?)
    ensures OnlyStops(s, Apply(s, a), Stepping(a))
  {
  }

  lemma StopsQuietly(s: System, s': System, w: nat)
    requires Bounds(s) && OnlyStops(s, s', w)
    ensures Quiet(s, s')
  {
    forall t | 0 <= t < |s.tasks|
      ensures Progress(s.me, s.tasks[t], s'.tasks[t])
    {
      MovedIsProgress(s.me, s.tasks[t], s'.tasks[t]);
    }
  }

  lemma WorkerStepIsQuiet(s: System, a: Action)
    requires Invariant(s) && Enabled(s, a) && (a.HangUp? || a.LeaveDone? || a.EndWorker?)
    ensures Quiet(s, Apply(s, a))
  {
    WorkerOnlyStops(s, a);
    StopsQuietly(s, Apply(s, a), Stepping(a));
  }

  // The dispatcher

  lemma GuildEventsGrow(log: seq<(nat, GlobalEvent)>, since: nat, entry: (nat, GlobalEvent), guild: nat)
    requires since <= |log|
    ensures GuildEvents((log + [entry])[since..], guild) ==
            GuildEvents(log[since..], guild) + (if entry.0 == guild then [entry.1] else [])
  {
    var more := (log + [entry])[since..];
    assert more == log[since..] + [entry];
    assert more[..|more| - 1] == log[since..];
  }

  /** The event has been read off the global gateway; its guild's listener, if any, is still owed it. */
  function Arrived(s: System, guild: nat, event: GlobalEvent): System {
    s.(log := s.log + [(guild, event)], blocked := guild in s.registry)
  }

  lemma ArrivalKeeps(s: System, guild: nat, event: GlobalEvent)
    requires Invariant(s) && !s.blocked
    ensures Invariant(Arrived(s, guild, event))
  {
    var s' := Arrived(s, guild, event);
    forall r | 0 <= r < |s.subs|
      ensures Live(s', r) <==> Live(s, r)
      ensures StreamOf(s', r)
    {
      assert HeldByTask(s', r) <==> HeldByTask(s, r);
      assert StreamOf(s, r) && Held(s, r) == [];
      GuildEventsGrow(s.log, s.subs[r].since, (guild, event), s.subs[r].guild);
      assert Held(s', r) == if guild in s.registry && s.registry[guild] == r then [event] else [];
    }
  }

  lemma SameHolders(s: System, s': System, r: nat)
    requires s'.me == s.me && s'.workers == s.workers && s'.tasks == s.tasks
    ensures Live(s', r) <==> Live(s, r)
  {
    assert HeldByTask(s', r) <==> HeldByTask(s, r);
  }

  lemma DropKeeps(s: System, guild: nat)
    requires Invariant(s) && s.blocked && s.log[|s.log| - 1].0 == guild && !Live(s, s.registry[guild])
    ensures Invariant(s.(registry := s.registry - {guild}, blocked := false))
  {
    var s' := s.(registry := s.registry - {guild}, blocked := false);
    forall r | 0 <= r < |s.subs|
      ensures (Live(s', r) <==> Live(s, r)) && StreamOf(s', r)
    {
      SameHolders(s, s', r);
      assert StreamOf(s, r);
      StreamFrame(s, s', r);
    }
  }

  /** The event has been put into the listener's channel. */
  ghost predicate PushedAs(s: System, s': System, r: nat, event: GlobalEvent) {
    && r < |s.subs| && |s.subs[r].queue| < CHANNEL_CAPACITY
    && s' == s.(subs := s.subs[r := s.subs[r].(queue := s.subs[r].queue + [event])], blocked := false)
  }

  lemma PushedStream(s: System, s': System, guild: nat, event: GlobalEvent, r: nat)
    requires guild in s.registry && PushedAs(s, s', s.registry[guild], event)
    requires s.blocked && s.log != [] && s.log[|s.log| - 1] == (guild, event)
    requires r < |s.subs| && s.subs[r].since <= |s.log| && StreamOf(s, r) && (r == s.registry[guild] ==> Live(s, r))
    ensures s'.subs[r].since <= |s'.log| && StreamOf(s', r)
  {
    SameHolders(s, s', r);
    if r == s.registry[guild] {
      assert s.subs[r].got + (s.subs[r].queue + [event]) == s.subs[r].got + s.subs[r].queue + [event];
      assert Held(s, r) == [event] && Due(s', r) == Due(s, r);
    } else {
      StreamFrame(s, s', r);
    }
  }

  lemma PushedRest(s: System, s': System, r: nat, event: GlobalEvent)
    requires Invariant(s) && PushedAs(s, s', r, event)
    ensures Bounds(s') && FaithfulTasks(s') && SingleOwner(s') && Registered(s') && Consumed(s') && Answered(s')
  {
    forall q: nat
      ensures Live(s', q) <==> Live(s, q)
    {
      SameHolders(s, s', q);
    }
  }

  lemma PushKeeps(s: System, guild: nat, event: GlobalEvent)
    requires Invariant(s) && s.blocked && s.log[|s.log| - 1] == (guild, event)
    requires Live(s, s.registry[guild]) && |s.subs[s.registry[guild]].queue| < CHANNEL_CAPACITY
    ensures Invariant(Deliver(s, guild, event))
  {
    var s' := Deliver(s, guild, event);
    PushedRest(s, s', s.registry[guild], event);
    forall r | 0 <= r < |s.subs|
      ensures StreamOf(s', r)
    {
      PushedStream(s, s', guild, event, r);
    }
  }

  lemma DeliveryKeeps(s: System, guild: nat, event: GlobalEvent)
    requires Invariant(s) && s.blocked && s.log[|s.log| - 1] == (guild, event)
    ensures Invariant(Deliver(s, guild, event))
  {
    if !Live(s, s.registry[guild]) {
      DropKeeps(s, guild);
    } else if |s.subs[s.registry[guild]].queue| < CHANNEL_CAPACITY {
      PushKeeps(s, guild, event);
    } else {
      assert Deliver(s, guild, event) == s;
    }
  }

  lemma DeliverIgnoresFlag(s: System, guild: nat, event: GlobalEvent)
    requires guild in s.registry && s.registry[guild] < |s.subs|
    ensures Deliver(s, guild, event) == Deliver(s.(blocked := true), guild, event)
  {
    var r := s.registry[guild];
    assert HeldByTask(s.(blocked := true), r) <==> HeldByTask(s, r);
  }

  lemma DispatchKeeps(s: System, a: Action)
    requires Invariant(s) && Enabled(s, a) && (a.Dispatch? || a.Unblock?)
    ensures Invariant(Apply(s, a))
  {
    if a.Unblock? {
      DeliveryKeeps(s, s.log[|s.log| - 1].0, s.log[|s.log| - 1].1);
    } else {
      ArrivalKeeps(s, a.to, a.event);
      var s1 := Arrived(s, a.to, a.event);
      if a.to in s.registry {
        DeliveryKeeps(s1, a.to, a.event);
        DeliverIgnoresFlag(s.(log := s1.log), a.to, a.event);
      }
    }
  }

  // Subscribing, joining and receiving

  /** The guild has a new listener, for which a worker may have been made. */
  ghost predicate SubscribedAs(s: System, s': System, guild: nat, created: bool) {
    s' == s.(registry := s.registry[guild := |s.subs|],
             subs := s.subs + [Subscription(guild, |s.log|, [], [])],
             workers := if created then s.workers + [Preparing(|s.subs|)] else s.workers)
  }

  lemma NewHolders(s: System, s': System, guild: nat, created: bool, r: nat)
    requires Bounds(s) && SubscribedAs(s, s', guild, created)
    ensures Preparing(r) in s'.workers <==> Preparing(r) in s.workers || (created && r == |s.subs|)
    ensures r < |s.subs| ==> (Live(s', r) <==> Live(s, r))
    ensures Live(s', r) ==> r <= |s.subs|
  {
    if created {
      assert s'.workers[|s.workers|] == Preparing(|s.subs|);
      if Preparing(r) in s.workers {
        var w :| 0 <= w < |s.workers| && s.workers[w] == Preparing(r);
        assert s'.workers[w] == Preparing(r);
      }
    }
    assert HeldByTask(s', r) <==> HeldByTask(s, r);
  }

  lemma SubscribedStream(s: System, s': System, guild: nat, created: bool, r: nat)
    requires Bounds(s) && Streams(s) && SubscribedAs(s, s', guild, created) && !s.blocked && r <= |s.subs|
    ensures s'.subs[r].since <= |s'.log| && StreamOf(s', r)
  {
    if r < |s.subs| {
      NewHolders(s, s', guild, created, r);
      assert StreamOf(s, r) && Due(s', r) == Due(s, r);
    } else {
      assert Due(s', r) == [];
    }
  }

  lemma SubscribedRegistered(s: System, s': System, guild: nat, created: bool)
    requires Bounds(s) && Registered(s) && SubscribedAs(s, s', guild, created) && !s.blocked && !Refused(s, guild)
    ensures Registered(s')
  {
    forall r | 0 <= r < |s'.subs| && Live(s', r)
      ensures s'.subs[r].guild in s'.registry && s'.registry[s'.subs[r].guild] == r
    {
      NewHolders(s, s', guild, created, r);
      if r < |s.subs| {
        assert s.subs[r].guild in s.registry && s.registry[s.subs[r].guild] == r;
      }
    }
  }

  lemma SubscribedRest(s: System, s': System, guild: nat, created: bool)
    requires Invariant(s) && SubscribedAs(s, s', guild, created)
    ensures Bounds(s') && FaithfulTasks(s') && SingleOwner(s') && Consumed(s') && Answered(s')
  {
    forall r: nat
      ensures Preparing(r) in s'.workers <==> Preparing(r) in s.workers || (created && r == |s.subs|)
    {
      NewHolders(s, s', guild, created, r);
    }
  }

  lemma PrepareKeeps(s: System, guild: nat, created: bool)
    requires Invariant(s) && Enabled(s, PrepareCall(guild, created))
    ensures Invariant(Apply(s, PrepareCall(guild, created)))
  {
    if !Refused(s, guild) {
      var s' := Apply(s, PrepareCall(guild, created));
      SubscribedRest(s, s', guild, created);
      SubscribedRegistered(s, s', guild, created);
      forall r | 0 <= r < |s'.subs|
        ensures StreamOf(s', r)
      {
        SubscribedStream(s, s', guild, created, r);
      }
    }
  }

  function JoiningTask(rx: nat, accepted: bool): Task {
    Task(rx, accepted, [], Begin(accepted), 0, 0, true)
  }

  lemma NewTask(me: nat, rx: nat, accepted: bool)
    ensures var t := JoiningTask(rx, accepted); TaskBounds(t) && Faithful(me, t) && Heard(me, t.history) == []
  {
  }

  /** The worker has handed its receiver over to a new task. */
  ghost predicate JoinedAs(s: System, s': System, w: nat, task: Task) {
    && w < |s.workers| && s.workers[w] == Preparing(task.rx)
    && s' == s.(workers := s.workers[w := Talking(|s.tasks|)], tasks := s.tasks + [task])
  }

  lemma JoinedByStep(s: System, w: nat, accepted: bool)
    requires NamesExist(s) && Enabled(s, JoinChannel(w, accepted))
    ensures JoinedAs(s, Apply(s, JoinChannel(w, accepted)), w, JoiningTask(s.workers[w].rx, accepted))
  {
  }

  /** The receiver moves from the preparing worker to the new task; every other holder stays. */
  lemma Handover(s: System, s': System, w: nat, task: Task, r: nat)
    requires SingleOwner(s) && JoinedAs(s, s', w, task)
    ensures Preparing(r) in s'.workers <==> Preparing(r) in s.workers && r != task.rx
    ensures Live(s', r) ==> Live(s, r)
  {
    if Preparing(r) in s.workers && r != task.rx {
      var v :| 0 <= v < |s.workers| && s.workers[v] == Preparing(r);
      assert s'.workers[v] == Preparing(r);
    }
    if HeldByTask(s', r) && r != task.rx {
      var t :| 0 <= t < |s'.tasks| && s'.tasks[t].rx == r && !Done(s'.tasks[t]);
      assert s.tasks[t].rx == r;
    }
  }

  lemma JoinBounds(s: System, s': System, w: nat, task: Task)
    requires Bounds(s) && FaithfulTasks(s) && Registered(s) && SingleOwner(s) && JoinedAs(s, s', w, task)
    requires TaskBounds(task) && Faithful(s.me, task)
    ensures Bounds(s') && FaithfulTasks(s') && Registered(s')
  {
    assert Preparing(task.rx) in s.workers;
    forall r: nat
      ensures Preparing(r) in s'.workers ==> Preparing(r) in s.workers
      ensures Live(s', r) ==> Live(s, r)
    {
      Handover(s, s', w, task, r);
    }
  }

  lemma JoinStream(s: System, s': System, w: nat, task: Task, r: nat)
    requires SingleOwner(s) && JoinedAs(s, s', w, task) && r < |s.subs| && s.subs[r].since <= |s.log| && StreamOf(s, r)
    ensures StreamOf(s', r)
  {
    Handover(s, s', w, task, r);
    StreamFrame(s, s', r);
  }

  lemma JoinOwners(s: System, s': System, w: nat, task: Task)
    requires SingleOwner(s) && JoinedAs(s, s', w, task)
    ensures SingleOwner(s')
  {
    assert Preparing(task.rx) in s.workers;
    forall r: nat
      ensures Preparing(r) in s'.workers <==> Preparing(r) in s.workers && r != task.rx
    {
      Handover(s, s', w, task, r);
    }
  }

  lemma JoinConsumes(s: System, s': System, w: nat, task: Task)
    requires Bounds(s) && Consumed(s) && Answered(s) && SingleOwner(s) && JoinedAs(s, s', w, task) && Bounds(s')
    requires Heard(s.me, task.history) == []
    ensures Consumed(s') && Answered(s')
  {
    assert Preparing(task.rx) in s.workers;
    forall r: nat | Preparing(r) in s'.workers
      ensures Preparing(r) in s.workers
    {
      Handover(s, s', w, task, r);
    }
    assert forall t :: 0 <= t < |s.tasks| ==> s'.tasks[t] == s.tasks[t];
  }

  lemma JoinKeeps(s: System, w: nat, accepted: bool)
    requires Invariant(s) && Enabled(s, JoinChannel(w, accepted))
    ensures Invariant(Apply(s, JoinChannel(w, accepted)))
  {
    var s', task := Apply(s, JoinChannel(w, accepted)), JoiningTask(s.workers[w].rx, accepted);
    NewTask(s.me, s.workers[w].rx, accepted);
    JoinedByStep(s, w, accepted);
    JoinBounds(s, s', w, task);
    JoinOwners(s, s', w, task);
    JoinConsumes(s, s', w, task);
    forall r | 0 <= r < |s.subs|
      ensures StreamOf(s', r)
    {
      JoinStream(s, s', w, task, r);
    }
  }

  /** Moving the oldest queued event to the receiver's side. */
  function HandedOut(sub: Subscription): Subscription
    requires sub.queue != []
  {
    sub.(queue := sub.queue[1..], got := sub.got + [sub.queue[0]])
  }

  /** The oldest event of a task's channel has been handed to it, and has made this of it. */
  ghost predicate ReceivedAs(s: System, s': System, t: nat, task': Task) {
    && t < |s.tasks| && s.tasks[t].rx < |s.subs| && s.subs[s.tasks[t].rx].queue != [] && CanHandle(s.tasks[t])
    && task'.rx == s.tasks[t].rx
    && s' == s.(tasks := s.tasks[t := task'], subs := s.subs[s.tasks[t].rx := HandedOut(s.subs[s.tasks[t].rx])])
  }

  lemma ReceivedByStep(s: System, t: nat)
    requires NamesExist(s) && Enabled(s, Receive(t))
    ensures ReceivedAs(s, Apply(s, Receive(t)), t, s.tasks[t].After(s.me, Global(s.subs[s.tasks[t].rx].queue[0])))
  {
  }

  lemma ReceivingWasLive(s: System, s': System, t: nat, task': Task, r: nat)
    requires ReceivedAs(s, s', t, task') && Live(s', r)
    ensures Live(s, r)
  {
    if !HeldByWorker(s', r) {
      var k :| 0 <= k < |s'.tasks| && s'.tasks[k].rx == r && !Done(s'.tasks[k]);
      assert s.tasks[k].rx == r && !Done(s.tasks[k]);
      assert HeldByTask(s, r);
    }
  }

  lemma ReceiveRegistered(s: System, s': System, t: nat, task': Task)
    requires Registered(s) && ReceivedAs(s, s', t, task')
    ensures Registered(s')
  {
    forall r | 0 <= r < |s'.subs| && Live(s', r)
      ensures s'.subs[r].guild in s'.registry && s'.registry[s'.subs[r].guild] == r
    {
      ReceivingWasLive(s, s', t, task', r);
      assert s'.subs[r].guild == s.subs[r].guild;
    }
  }

  lemma ReceiveBounds(s: System, s': System, t: nat, task': Task)
    requires Bounds(s) && FaithfulTasks(s) && ReceivedAs(s, s', t, task')
    requires TaskBounds(task') && Faithful(s.me, task')
    ensures Bounds(s') && FaithfulTasks(s')
  {
  }

  lemma StreamMoves(s: System, s': System, r: nat)
    requires r < |s.subs| == |s'.subs| && s.subs[r].since <= |s.log| && StreamOf(s, r) && s.subs[r].queue != []
    requires s'.log == s.log && s'.blocked == s.blocked && s'.registry == s.registry
    requires s'.subs[r] == HandedOut(s.subs[r])
    requires Live(s', r) ==> Live(s, r)
    ensures StreamOf(s', r)
  {
    assert s'.subs[r].got + s'.subs[r].queue == s.subs[r].got + s.subs[r].queue;
  }

  lemma ReceiveStream(s: System, s': System, t: nat, task': Task, r: nat)
    requires ReceivedAs(s, s', t, task') && r < |s.subs| && s.subs[r].since <= |s.log| && StreamOf(s, r)
    ensures s'.subs[r].since <= |s'.log| && StreamOf(s', r)
  {
    if Live(s', r) {
      ReceivingWasLive(s, s', t, task', r);
    }
    if r == s.tasks[t].rx {
      StreamMoves(s, s', r);
    } else {
      StreamFrame(s, s', r);
    }
  }

  lemma ReceiveConsumes(s: System, s': System, t: nat, task': Task)
    requires Bounds(s) && SingleOwner(s) && Consumed(s) && Bounds(s') && ReceivedAs(s, s', t, task')
    requires Heard(s.me, task'.history) == Heard(s.me, s.tasks[t].history) + [s.subs[s.tasks[t].rx].queue[0]]
    ensures SingleOwner(s') && Consumed(s')
  {
    assert forall k :: 0 <= k < |s.tasks| && k != t ==> s'.tasks[k] == s.tasks[k] && s.tasks[k].rx != s.tasks[t].rx;
  }

  lemma ReceiveAnswered(s: System, s': System, t: nat, task': Task)
    requires Answered(s) && ReceivedAs(s, s', t, task') && task'.joined
    requires s.tasks[t].run.runner.trace <= task'.run.runner.trace
    ensures Answered(s')
  {
    forall a | a in s'.answers
      ensures NewAnswer(s', a)
    {
      assert NewAnswer(s, a);
      assert s'.tasks[a] == if a == t then task' else s.tasks[a];
    }
  }

  lemma ReceiveKeeps(s: System, t: nat)
    requires Invariant(s) && Enabled(s, Receive(t))
    ensures Invariant(Apply(s, Receive(t)))
  {
    var s', event := Apply(s, Receive(t)), Global(s.subs[s.tasks[t].rx].queue[0]);
    var task' := s.tasks[t].After(s.me, event);
    TaskContinues(s.me, s.tasks[t], event);
    ReceivedByStep(s, t);
    ReceiveBounds(s, s', t, task');
    ReceiveRegistered(s, s', t, task');
    ReceiveConsumes(s, s', t, task');
    ReceiveAnswered(s, s', t, task');
    forall r | 0 <= r < |s.subs|
      ensures StreamOf(s', r)
    {
      ReceiveStream(s, s', t, task', r);
    }
  }

  lemma StepKeepsSystem(s: System, a: Action)
    requires Invariant(s) && Enabled(s, a)
    ensures Invariant(Apply(s, a))
  {
    match a
    case PrepareCall(guild, created) => PrepareKeeps(s, guild, created);
    case JoinChannel(w, accepted) => JoinKeeps(s, w, accepted);
    case Receive(t) => ReceiveKeeps(s, t);
    case Dispatch(_, _) => DispatchKeeps(s, a);
    case Unblock => DispatchKeeps(s, a);
    case HandleOther(t, input) =>
      HandleOtherIsQuiet(s, t, input);
      QuietKeeps(s, Apply(s, a));
    case Flush(t) =>
      FlushIsQuiet(s, t);
      QuietKeeps(s, Apply(s, a));
    case TakeEvent(w) =>
      TakeEventIsQuiet(s, w);
      QuietKeeps(s, Apply(s, a));
    case _ =>
      WorkerStepIsQuiet(s, a);
      QuietKeeps(s, Apply(s, a));
  }

  // Main results

  /** Every state any run reaches satisfies the whole invariant. */
  lemma {:induction false} EveryReachableState(me: nat, actions: seq<Action>, s: System)
    requires Reaches(me, actions, s)
    ensures Invariant(s)
    decreases |actions|
  {
    if actions != [] {
      var n := |actions| - 1;
      var before :| Reaches(me, actions[..n], before) && NamesExist(before)
                 && Enabled(before, actions[n]) && s == Apply(before, actions[n]);
      EveryReachableState(me, actions[..n], before);
      StepKeepsSystem(before, actions[n]);
    }
  }

  /** A guild never has two live receivers, and no receiver is held twice. */
  lemma {:induction false} OneLiveReceiverPerGuild(me: nat, actions: seq<Action>, s: System, q: nat, r: nat)
    requires Reaches(me, actions, s)
    requires q < |s.subs| && r < |s.subs| && Live(s, q) && Live(s, r) && s.subs[q].guild == s.subs[r].guild
    ensures q == r
    ensures !(HeldByWorker(s, r) && HeldByTask(s, r))
  {
    EveryReachableState(me, actions, s);
  }

  /** `PrepareCall` is turned away exactly while a receiver for the guild is live. */
  lemma {:induction false} RefusedExactlyWhileHeld(me: nat, actions: seq<Action>, s: System, guild: nat)
    requires Reaches(me, actions, s)
    ensures Refused(s, guild) <==> exists r :: 0 <= r < |s.subs| && s.subs[r].guild == guild && Live(s, r)
  {
    EveryReachableState(me, actions, s);
    if Refused(s, guild) {
      var r := s.registry[guild];
      assert s.subs[r].guild == guild && Live(s, r);
    }
  }

  /** The receiver a worker was prepared with. */
  function ReceiverOf(s: System, w: nat): nat
    requires w < |s.workers| && (s.workers[w].Leaving? ==> s.workers[w].task < |s.tasks|)
  {
    match s.workers[w]
    case Preparing(r) => r
    case Leaving(t) => s.tasks[t].rx
    case _ => 0
  }

  /** Others' receivers stay live when a worker stops. */
  lemma OthersStayLive(s: System, s': System, w: nat, q: nat)
    requires OnlyStops(s, s', w) && Live(s, q) && s.workers[w] != Preparing(q)
    ensures Live(s', q)
  {
    if HeldByWorker(s, q) {
      var v :| 0 <= v < |s.workers| && s.workers[v] == Preparing(q);
      assert s'.workers[v] == Preparing(q);
    } else {
      var t :| 0 <= t < |s.tasks| && s.tasks[t].rx == q && !Done(s.tasks[t]);
      assert s'.tasks[t].rx == q && !Done(s'.tasks[t]);
    }
  }

  /** No task is left that holds the receiver of the worker whose hang-up completes. */
  lemma NoTaskHolds(s: System, s': System, w: nat, r: nat)
    requires OnlyStops(s, s', w) && SingleOwner(s)
    requires s.workers[w] == Preparing(r)
             || (s.workers[w].Leaving? && s.workers[w].task < |s.tasks| && s.tasks[s.workers[w].task].rx == r && Done(s.tasks[s.workers[w].task]))
    ensures !HeldByTask(s', r)
  {
    forall t | 0 <= t < |s'.tasks|
      ensures s'.tasks[t].rx == s.tasks[t].rx && (Done(s'.tasks[t]) <==> Done(s.tasks[t]))
    {
      assert s'.tasks[t] == s.tasks[t] || s'.tasks[t] == s.tasks[t].(open := false);
    }
  }

  lemma HungUpTasks(s: System, a: Action, w: nat)
    requires Invariant(s) && Enabled(s, a)
    requires (a == HangUp(w) && s.workers[w].Preparing?) || a == LeaveDone(w)
    ensures var r, s' := ReceiverOf(s, w), Apply(s, a);
            && !HeldByTask(s', r)
            && forall q: nat :: q != r && Live(s, q) ==> Live(s', q)
  {
    var r, s' := ReceiverOf(s, w), Apply(s, a);
    WorkerOnlyStops(s, a);
    NoTaskHolds(s, s', w, r);
    forall q: nat | q != r && Live(s, q)
      ensures Live(s', q)
    {
      OthersStayLive(s, s', w, q);
    }
  }

  /**
    When a hang-up completes (at once for a call that never joined, else when its task has returned) the
    call's receiver is gone, and its guild is free unless the registry has already passed to a later call.
   */
  lemma {:induction false} HangUpFreesGuild(me: nat, actions: seq<Action>, s: System, a: Action, w: nat)
    requires Reaches(me, actions, s) && Enabled(s, a) && NamesExist(s)
    requires (a == HangUp(w) && s.workers[w].Preparing?) || a == LeaveDone(w)
    ensures var r, s' := ReceiverOf(s, w), Apply(s, a);
            && r < |s.subs| && !Live(s', r)
            && (Refused(s', s.subs[r].guild) <==> Refused(s, s.subs[r].guild) && s.registry[s.subs[r].guild] != r)
  {
    EveryReachableState(me, actions, s);
    var r, s' := ReceiverOf(s, w), Apply(s, a);
    assert a.HangUp? ==> s.workers[w] == Preparing(r);
    WorkerStepIsQuiet(s, a);
    forall v | 0 <= v < |s'.workers|
      ensures s'.workers[v] != Preparing(r)
    {
    }
    HungUpTasks(s, a, w);
    if Refused(s', s.subs[r].guild) {
      QuietLive(s, s', s'.registry[s.subs[r].guild]);
    }
  }

  /**
    A voice task has handled exactly a prefix of its guild's events since the call was prepared, in order,
    and a live receiver is owed nothing that is not in its channel or in the dispatcher's hands.
   */
  lemma {:induction false} TaskHearsItsGuild(me: nat, actions: seq<Action>, s: System, t: nat)
    requires Reaches(me, actions, s) && t < |s.tasks|
    ensures var task := s.tasks[t];
            && task.rx < |s.subs| && s.subs[task.rx].since <= |s.log|
            && Heard(s.me, task.history) <= Due(s, task.rx)
            && (Live(s, task.rx) ==>
                  Heard(s.me, task.history) + s.subs[task.rx].queue + Held(s, task.rx) == Due(s, task.rx))
  {
    EveryReachableState(me, actions, s);
    assert StreamOf(s, s.tasks[t].rx);
  }

  /**
    So the voice gateway is opened at the first complete prefix of the guild's events since the call was
    prepared, with the last update of each kind in it, as soon as the task has heard that far and not before.
   */
  lemma {:induction false} TaskOpensItsGuildsGateway(me: nat, actions: seq<Action>, s: System, t: nat, k: nat)
    requires Reaches(me, actions, s) && t < |s.tasks| && s.tasks[t].joined
    requires s.tasks[t].rx < |s.subs| && s.subs[s.tasks[t].rx].since <= |s.log|
    requires FirstComplete(Due(s, s.tasks[t].rx), k)
    ensures Identities(Actions(s.tasks[t].run.runner.trace)) ==
            if k <= |Heard(s.me, s.tasks[t].history)| then [IdentityAfter(Due(s, s.tasks[t].rx)[..k])] else []
  {
    TaskHearsItsGuild(me, actions, s, t);
    EveryReachableState(me, actions, s);
    assert Faithful(s.me, s.tasks[t]);
    OpenedFromHistory(s.me, s.tasks[t].history, Due(s, s.tasks[t].rx), k);
  }

  /** The answer to the Asterisk channel is only ever queued for a task whose voice channel has a key. */
  lemma {:induction false} AnswerOnlyWithKey(me: nat, actions: seq<Action>, s: System, a: nat)
    requires Reaches(me, actions, s) && a in s.answers
    ensures a < |s.tasks| && s.tasks[a].run.runner.state.KeyInstalled()
  {
    EveryReachableState(me, actions, s);
    KeyBeforeAnnouncement(s.me, s.tasks[a].history);
  }
}
