/** What the workers do for their tasks, over every reachable state: who reads whose events, and what of them is answered. */
module SessionWorkers {
  import opened ConnectInfo
  import opened VoiceTask
  import opened Session
  import opened SessionSafety
  import opened SessionHangUps

  /** The events of a task its worker has read. */
  function Read(t: Task): seq<VoiceEvent>
    requires t.taken <= |EmittedBy(t)|
  {
    EmittedBy(t)[..t.taken]
  }

  ghost predicate Attends(s: System, w: nat, t: nat) {
    w < |s.workers| && HasTask(s.workers[w]) && s.workers[w].task == t
  }

  /** The receiving end of a task's events is held as long as some worker has the task, and no longer. */
  ghost predicate Attended(s: System) {
    forall t: nat :: t < |s.tasks| && s.tasks[t].open ==> exists w: nat :: Attends(s, w, t)
  }

  /** A worker answers its channel once for each connection its task has announced and it has read of. */
  ghost predicate AnsweredEach(s: System)
    requires Bounds(s)
  {
    && (forall t: nat :: t < |s.tasks| ==> multiset(s.answers)[t] == multiset(Read(s.tasks[t]))[FullyConnected])
    && forall t: nat :: t >= |s.tasks| ==> multiset(s.answers)[t] == 0
  }

  /** A worker in its loop has not read that its task is over. */
  ghost predicate NotToldClosed(s: System)
    requires Bounds(s)
  {
    forall w :: 0 <= w < |s.workers| && s.workers[w].Talking? && s.workers[w].task < |s.tasks| ==>
      Closed !in Read(s.tasks[s.workers[w].task])
  }

  ghost predicate Attentive(s: System) {
    Bounds(s) && Attended(s) && AnsweredEach(s) && NotToldClosed(s)
  }

  // Who holds which end

  /** Workers keep their tasks, and no receiving end changes hands. */
  ghost predicate KeepsHolders(s: System, s': System) {
    && (forall w: nat, t: nat :: Attends(s, w, t) ==> Attends(s', w, t))
    && |s'.tasks| == |s.tasks| && forall t :: 0 <= t < |s.tasks| ==> s'.tasks[t].open == s.tasks[t].open
  }

  lemma HoldersKept(s: System, a: Action)
    requires NamesExist(s) && Enabled(s, a)
    requires a.PrepareCall? || a.Dispatch? || a.Unblock? || a.Receive? || a.HandleOther? || a.Flush? || a.HangUp?
    ensures KeepsHolders(s, Apply(s, a))
  {
  }

  lemma KeepingHoldersKeepsAttended(s: System, s': System)
    requires Attended(s) && KeepsHolders(s, s')
    ensures Attended(s')
  {
    forall t: nat | t < |s'.tasks| && s'.tasks[t].open
      ensures exists w: nat :: Attends(s', w, t)
    {
      var w: nat :| Attends(s, w, t);
      assert Attends(s', w, t);
    }
  }

  lemma JoiningKeepsAttended(s: System, s': System, w: nat, task: Task)
    requires Attended(s) && JoinedAs(s, s', w, task)
    ensures Attended(s')
  {
    forall t: nat | t < |s'.tasks| && s'.tasks[t].open
      ensures exists v: nat :: Attends(s', v, t)
    {
      if t == |s.tasks| {
        assert Attends(s', w, t);
      } else {
        var v: nat :| Attends(s, v, t);
        assert Attends(s', v, t);
      }
    }
  }

  /** A worker ends, and what it held is dropped. */
  ghost predicate Drops(s: System, s': System, w: nat) {
    DropsEnd(s, s', w) && (HasTask(s.workers[w]) && s.workers[w].task < |s.tasks| ==> !s'.tasks[s.workers[w].task].open)
  }

  lemma DroppingKeepsAttended(s: System, s': System, w: nat)
    requires Attended(s) && Drops(s, s', w)
    ensures Attended(s')
  {
    forall t: nat | t < |s'.tasks| && s'.tasks[t].open
      ensures exists v: nat :: Attends(s', v, t)
    {
      assert s.tasks[t].open;
      var v: nat :| Attends(s, v, t);
      assert v != w;
      assert Attends(s', v, t);
    }
  }

  lemma TakingKeepsAttended(s: System, w: nat)
    requires Attended(s) && NamesExist(s) && Enabled(s, TakeEvent(w))
    ensures Attended(Apply(s, TakeEvent(w)))
  {
    var t, s' := s.workers[w].task, Apply(s, TakeEvent(w));
    if EmittedBy(s.tasks[t])[s.tasks[t].taken] == Closed {
      assert Drops(s, s', w);
      DroppingKeepsAttended(s, s', w);
    } else {
      assert KeepsHolders(s, s');
      KeepingHoldersKeepsAttended(s, s');
    }
  }

  lemma StepKeepsAttended(s: System, a: Action)
    requires Attended(s) && NamesExist(s) && Enabled(s, a)
    ensures Attended(Apply(s, a))
  {
    match a {
      case JoinChannel(w, accepted) =>
        JoinedByStep(s, w, accepted);
        JoiningKeepsAttended(s, Apply(s, a), w, JoiningTask(s.workers[w].rx, accepted));
      case TakeEvent(w) =>
        TakingKeepsAttended(s, w);
      case LeaveDone(w) => DroppingKeepsAttended(s, Apply(s, a), w);
      case EndWorker(w) => DroppingKeepsAttended(s, Apply(s, a), w);
      case _ =>
        HoldersKept(s, a);
        KeepingHoldersKeepsAttended(s, Apply(s, a));
    }
  }

  // What has been read

  /** Nothing is read, nothing answered, and no worker is in its loop with a task it was not in its loop with. */
  ghost predicate ReadsKept(s: System, s': System)
    requires Bounds(s) && Bounds(s')
  {
    && s'.answers == s.answers && |s.tasks| <= |s'.tasks|
    && (forall t :: 0 <= t < |s.tasks| ==> Read(s'.tasks[t]) == Read(s.tasks[t]))
    && (forall t :: |s.tasks| <= t < |s'.tasks| ==> Read(s'.tasks[t]) == [])
    && forall w :: 0 <= w < |s'.workers| && s'.workers[w].Talking? && s'.workers[w].task < |s.tasks| ==>
         w < |s.workers| && s'.workers[w] == s.workers[w]
  }

  lemma ReadsKeptKeeps(s: System, s': System)
    requires Bounds(s) && Bounds(s') && ReadsKept(s, s') && AnsweredEach(s) && NotToldClosed(s)
    ensures AnsweredEach(s') && NotToldClosed(s')
  {
    forall t: nat | |s.tasks| <= t < |s'.tasks|
      ensures multiset(s'.answers)[t] == multiset(Read(s'.tasks[t]))[FullyConnected]
    {
      assert Read(s'.tasks[t]) == [];
    }
  }

  lemma HandlingReadsNothing(me: nat, t: Task, input: Input)
    requires CanHandle(t) && TaskBounds(t) && Faithful(me, t)
    ensures t.After(me, input).taken <= |EmittedBy(t.After(me, input))| && Read(t.After(me, input)) == Read(t)
  {
    TaskContinues(me, t, input);
    var before, after := t.run.runner.trace, t.After(me, input).run.runner.trace;
    EmitsAppend(before, after[|before|..]);
    assert before + after[|before|..] == after;
  }

  /** One task goes on without anybody reading its events. */
  lemma GoingOnReadsNothing(s: System, s': System, t: nat)
    requires Bounds(s) && Bounds(s') && t < |s.tasks| == |s'.tasks| && s'.tasks == s.tasks[t := s'.tasks[t]]
    requires s'.answers == s.answers && s'.workers == s.workers && Read(s'.tasks[t]) == Read(s.tasks[t])
    ensures ReadsKept(s, s')
  {
  }

  lemma JoiningReadsNothing(s: System, s': System, w: nat, task: Task)
    requires Bounds(s) && Bounds(s') && JoinedAs(s, s', w, task) && task.taken == 0
    ensures ReadsKept(s, s')
  {
  }

  /** Only workers are added or stop, and only receiving ends are dropped. */
  ghost predicate OnlyWorkers(s: System, s': System) {
    && s'.answers == s.answers && |s'.tasks| == |s.tasks|
    && (forall t :: 0 <= t < |s.tasks| ==> s'.tasks[t] == s.tasks[t].(open := s'.tasks[t].open))
    && forall w :: 0 <= w < |s'.workers| && s'.workers[w].Talking? ==> w < |s.workers| && s'.workers[w] == s.workers[w]
  }

  lemma WorkersReadNothing(s: System, s': System)
    requires Bounds(s) && Bounds(s') && OnlyWorkers(s, s')
    ensures ReadsKept(s, s')
  {
    forall t | 0 <= t < |s.tasks|
      ensures Read(s'.tasks[t]) == Read(s.tasks[t])
    {
      assert s'.tasks[t] == s.tasks[t].(open := s'.tasks[t].open);
    }
  }

  lemma OthersOnlyWorkers(s: System, a: Action)
    requires NamesExist(s) && Enabled(s, a)
    requires a.PrepareCall? || a.Dispatch? || a.Unblock? || a.HangUp? || a.LeaveDone? || a.EndWorker?
    ensures OnlyWorkers(s, Apply(s, a))
  {
  }

  lemma OthersReadNothing(s: System, a: Action)
    requires Invariant(s) && Enabled(s, a) && !a.TakeEvent? && Bounds(Apply(s, a))
    ensures ReadsKept(s, Apply(s, a))
  {
    if a.Receive? {
      HandlingReadsNothing(s.me, s.tasks[a.receiver], Global(s.subs[s.tasks[a.receiver].rx].queue[0]));
      GoingOnReadsNothing(s, Apply(s, a), a.receiver);
    } else if a.HandleOther? {
      HandlingReadsNothing(s.me, s.tasks[a.handler], a.input);
      GoingOnReadsNothing(s, Apply(s, a), a.handler);
    } else if a.Flush? {
      GoingOnReadsNothing(s, Apply(s, a), a.emitter);
    } else if a.JoinChannel? {
      JoinedByStep(s, a.joiner, a.accepted);
      JoiningReadsNothing(s, Apply(s, a), a.joiner, JoiningTask(s.workers[a.joiner].rx, a.accepted));
    } else {
      OthersOnlyWorkers(s, a);
      WorkersReadNothing(s, Apply(s, a));
    }
  }

  lemma ReadOneMore(t: Task)
    requires t.taken < t.flushed <= |EmittedBy(t)|
    ensures Read(t.(taken := t.taken + 1)) == Read(t) + [EmittedBy(t)[t.taken]]
  {
  }

  /** The worker has read one event more; it has answered if it is an announcement, and ended if the task is over. */
  ghost predicate ReadsOne(s: System, s': System, w: nat, t: nat)
    requires Bounds(s) && Bounds(s')
  {
    && w < |s.workers| && s.workers[w] == Talking(t) && t < |s.tasks| == |s'.tasks|
    && s.tasks[t].taken < |EmittedBy(s.tasks[t])|
    && var event := EmittedBy(s.tasks[t])[s.tasks[t].taken];
       && Read(s'.tasks[t]) == Read(s.tasks[t]) + [event]
       && (forall u :: 0 <= u < |s.tasks| && u != t ==> Read(s'.tasks[u]) == Read(s.tasks[u]))
       && s'.answers == s.answers + (if event == FullyConnected then [t] else [])
       && s'.workers == if event == Closed then s.workers[w := Ended] else s.workers
  }

  lemma TakenReadsOne(s: System, s': System, w: nat, t: nat, event: VoiceEvent)
    requires Bounds(s) && Bounds(s') && TakenAs(s, s', w, t, event) && s.workers[w] == Talking(t)
    ensures ReadsOne(s, s', w, t)
  {
    ReadOneMore(s.tasks[t]);
    assert Read(s'.tasks[t]) == Read(s.tasks[t].(taken := s.tasks[t].taken + 1));
    assert s.answers + [] == s.answers;
  }

  lemma ReadingKeepsAnswers(s: System, s': System, w: nat, t: nat)
    requires Bounds(s) && Bounds(s') && ReadsOne(s, s', w, t) && AnsweredEach(s)
    ensures AnsweredEach(s')
  {
  }

  lemma ReadingKeepsGoing(s: System, s': System, w: nat, t: nat)
    requires Bounds(s) && Bounds(s') && Paired(s) && ReadsOne(s, s', w, t) && NotToldClosed(s)
    ensures NotToldClosed(s')
  {
    forall v | 0 <= v < |s'.workers| && s'.workers[v].Talking? && s'.workers[v].task < |s'.tasks|
      ensures Closed !in Read(s'.tasks[s'.workers[v].task])
    {
      assert s'.workers[v] == s.workers[v];
      assert v != w ==> s.workers[v].task != t;
    }
  }

  lemma StepKeepsAttentive(s: System, a: Action)
    requires Invariant(s) && Paired(s) && Attentive(s) && Enabled(s, a)
    ensures Attentive(Apply(s, a))
  {
    StepKeepsSystem(s, a);
    StepKeepsAttended(s, a);
    if a.TakeEvent? {
      var t := s.workers[a.taker].task;
      TakenByStep(s, a.taker);
      TakenReadsOne(s, Apply(s, a), a.taker, t, EmittedBy(s.tasks[t])[s.tasks[t].taken]);
      ReadingKeepsAnswers(s, Apply(s, a), a.taker, t);
      ReadingKeepsGoing(s, Apply(s, a), a.taker, t);
    } else {
      OthersReadNothing(s, a);
      ReadsKeptKeeps(s, Apply(s, a));
    }
  }

  // Main results

  /**
    In every reachable state: a task's events have a reader exactly as long as a worker has the task; the channel has
    been answered once for each announcement the worker has read; and no worker goes on after it has read of the end.
   */
  lemma {:induction false} AlwaysAttentive(me: nat, actions: seq<Action>, s: System)
    requires Reaches(me, actions, s)
    ensures Attentive(s) && Paired(s)
    decreases |actions|
  {
    if actions != [] {
      var n := |actions| - 1;
      var before :| Reaches(me, actions[..n], before) && NamesExist(before)
                 && Enabled(before, actions[n]) && s == Apply(before, actions[n]);
      AlwaysAttentive(me, actions[..n], before);
      AlwaysPaired(me, actions[..n], before);
      EveryReachableState(me, actions[..n], before);
      StepKeepsAttentive(before, actions[n]);
      StepKeepsPaired(before, actions[n]);
    }
  }

  /**
    A call is turned away without a trace, or its guild's events go to a new receiver from now on. It is held by a new
    worker, unless there is no encoder: then the guild stays free.
   */
  lemma PreparedExactly(s: System, guild: nat, created: bool, s': System)
    requires Invariant(s) && Moves(s, PrepareCall(guild, created), s')
    ensures Refused(s, guild) ==> s' == s
    ensures !Refused(s, guild) ==>
              && s'.subs == s.subs + [Subscription(guild, |s.log|, [], [])]
              && s'.registry == s.registry[guild := |s.subs|] && s'.tasks == s.tasks
              && s'.workers == (if created then s.workers + [Preparing(|s.subs|)] else s.workers)
              && (Refused(s', guild) <==> created)
  {
    if !Refused(s, guild) {
      NewHolders(s, s', guild, created, |s.subs|);
      if created {
        assert s'.workers[|s.workers|] == Preparing(|s.subs|);
      } else {
        assert !HeldByTask(s', |s.subs|);
      }
    }
  }

  /** An event for a guild reaches its listener, waits for room, or finds it gone; then the guild is forgotten. */
  lemma DispatchedExactly(s: System, guild: nat, event: GlobalEvent, s': System)
    requires Moves(s, Dispatch(guild, event), s')
    ensures s'.log == s.log + [(guild, event)]
    ensures guild in s'.registry <==> Refused(s, guild)
    ensures s'.blocked <==> Refused(s, guild) && |s.subs[s.registry[guild]].queue| >= 32
    ensures Refused(s, guild) && !s'.blocked ==>
              s'.subs == s.subs[s.registry[guild] := s.subs[s.registry[guild]].(queue := s.subs[s.registry[guild]].queue + [event])]
    ensures !Refused(s, guild) || s'.blocked ==> s'.subs == s.subs
  {
    var logged := s.(log := s.log + [(guild, event)]);
    assert forall r: nat :: HeldByTask(logged, r) <==> HeldByTask(s, r);
  }

  /** A join hands the prepared receiver to a new task, which registers its join intent first. */
  lemma JoinStarts(s: System, w: nat, accepted: bool, s': System)
    requires Moves(s, JoinChannel(w, accepted), s')
    ensures |s'.tasks| == |s.tasks| + 1 && s'.workers == s.workers[w := Talking(|s.tasks|)]
    ensures var t := s'.tasks[|s.tasks|];
            && s.workers[w] == Preparing(t.rx) && t.joined == accepted && t.open && t.taken == t.flushed == 0
            && t.run.runner.trace != [] && t.run.runner.trace[0] == JoinIntent(accepted)
  {
  }

  ghost predicate Waiting(s: System, w: nat, t: nat) {
    t < |s.tasks| && w < |s.workers| && (s.workers[w] == Leaving(t) || (s.workers[w] == Ended && Done(s.tasks[t])))
  }

  lemma ReturnedIsLeftAlone(s: System, a: Action, t: nat)
    requires NamesExist(s) && Enabled(s, a) && t < |s.tasks| && Done(s.tasks[t])
    requires a.PrepareCall? || a.Dispatch? || a.Unblock? || a.JoinChannel? || a.Receive? || a.HandleOther? || a.Flush?
    ensures t < |Apply(s, a).tasks| && Apply(s, a).tasks[t] == s.tasks[t]
  {
  }

  lemma ReturnedIsRead(s: System, a: Action, t: nat)
    requires NamesExist(s) && Enabled(s, a) && t < |s.tasks| && Done(s.tasks[t])
    requires a.TakeEvent? || a.HangUp? || a.LeaveDone? || a.EndWorker?
    ensures t < |Apply(s, a).tasks| && Done(Apply(s, a).tasks[t])
  {
  }

  lemma DoneStaysDone(s: System, a: Action, t: nat)
    requires NamesExist(s) && Enabled(s, a) && t < |s.tasks| && Done(s.tasks[t])
    ensures t < |Apply(s, a).tasks| && Done(Apply(s, a).tasks[t])
  {
    if a.TakeEvent? || a.HangUp? || a.LeaveDone? || a.EndWorker? {
      ReturnedIsRead(s, a, t);
    } else {
      ReturnedIsLeftAlone(s, a, t);
    }
  }

  lemma EndedStaysEnded(s: System, a: Action, w: nat)
    requires NamesExist(s) && Enabled(s, a) && w < |s.workers| && s.workers[w] == Ended
    ensures w < |Apply(s, a).workers| && Apply(s, a).workers[w] == Ended
  {
  }

  lemma LeavingGoesOn(s: System, a: Action, w: nat, t: nat)
    requires NamesExist(s) && Enabled(s, a) && w < |s.workers| && s.workers[w] == Leaving(t) && t < |s.tasks|
    ensures w < |Apply(s, a).workers|
    ensures Apply(s, a).workers[w] == Leaving(t) || (Apply(s, a).workers[w] == Ended && Done(s.tasks[t]))
  {
  }

  lemma TasksRemain(s: System, a: Action)
    requires NamesExist(s) && Enabled(s, a)
    ensures |s.tasks| <= |Apply(s, a).tasks|
  {
  }

  lemma WaitingGoesOn(s: System, a: Action, w: nat, t: nat, s': System)
    requires NamesExist(s) && Enabled(s, a) && Waiting(s, w, t) && s' == Apply(s, a)
    ensures Waiting(s', w, t)
  {
    TasksRemain(s, a);
    if s.workers[w] == Ended {
      EndedStaysEnded(s, a, w);
    } else {
      LeavingGoesOn(s, a, w, t);
    }
    if Done(s.tasks[t]) {
      DoneStaysDone(s, a, t);
    }
  }

  /** A hang-up of a call with a task leaves the worker waiting, and it ends no sooner than the task has returned. */
  lemma {:induction false} HangUpWaits(s: System, w: nat, t: nat, hung: System, more: seq<Action>, s': System)
    requires w < |s.workers| && s.workers[w] == Talking(t) && t < |s.tasks| && Moves(s, HangUp(w), hung)
    requires Leads(hung, more, s')
    ensures Waiting(s', w, t)
    decreases |more|
  {
    if more != [] {
      var init, last := more[..|more| - 1], more[|more| - 1];
      var before :| Leads(hung, init, before) && Moves(before, last, s');
      HangUpWaits(s, w, t, hung, init, before);
      WaitingGoesOn(before, last, w, t, s');
    }
  }
}
