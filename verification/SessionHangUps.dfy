/** When a hang-up can still complete: once a call's worker is leaving, nobody reads its task's events any more. */
module SessionHangUps {
  import opened Prelude
  import opened ConnectInfo
  import opened VoiceTask
  import opened Session
  import opened SessionSafety

  ghost predicate Moves(s: System, a: Action, s': System) {
    NamesExist(s) && !Aborted(s) && Enabled(s, a) && s' == Apply(s, a)
  }

  /** A run of enabled steps from any state. */
  ghost predicate Leads(s: System, more: seq<Action>, s': System) {
    if more == [] then s' == s
    else
      var init, last := more[..|more| - 1], more[|more| - 1];
      exists before :: Leads(s, init, before) && Moves(before, last, s')
  }

  lemma LeadsOneMore(s: System, more: seq<Action>, before: System, a: Action, s': System)
    requires Leads(s, more, before) && Moves(before, a, s')
    ensures Leads(s, more + [a], s')
  {
    assert (more + [a])[..|more|] == more;
  }

  lemma LeadsAlsoBy(s: System, init: seq<Action>, before: System, a: Action, s': System, more: seq<Action>)
    requires Leads(s, init, before) && Moves(before, a, s') && more == init + [a]
    ensures Leads(s, more, s')
  {
    LeadsOneMore(s, init, before, a, s');
  }

  lemma ReachesOneMore(me: nat, actions: seq<Action>, s: System, a: Action, s': System)
    requires Reaches(me, actions, s) && Moves(s, a, s')
    ensures Reaches(me, actions + [a], s')
  {
    assert (actions + [a])[..|actions|] == actions;
  }

  lemma LastOfBoth(a: seq<Action>, b: seq<Action>)
    requires b != []
    ensures a + b[..|b| - 1] + [b[|b| - 1]] == a + b
  {
  }

  /** What follows a reachable state is reachable. */
  lemma {:induction false} ReachesFurther(me: nat, actions: seq<Action>, s: System, more: seq<Action>, s': System)
    requires Reaches(me, actions, s) && Leads(s, more, s')
    ensures Reaches(me, actions + more, s')
    decreases |more|
  {
    if more == [] {
      assert actions + more == actions;
    } else {
      var init, last := more[..|more| - 1], more[|more| - 1];
      var before :| Leads(s, init, before) && Moves(before, last, s');
      ReachesFurther(me, actions, s, init, before);
      ReachesOneMore(me, actions + init, before, last, s');
      LastOfBoth(actions, more);
    }
  }

  // Workers and their tasks

  predicate HasTask(w: Worker) {
    w.Talking? || w.Leaving?
  }

  /** Every worker that has started a task holds the receiving end of its events, and of no other's. */
  ghost predicate Paired(s: System) {
    && (forall w :: 0 <= w < |s.workers| && HasTask(s.workers[w]) ==>
          s.workers[w].task < |s.tasks| && s.tasks[s.workers[w].task].open)
    && forall w, v :: 0 <= w < v < |s.workers| && HasTask(s.workers[w]) && HasTask(s.workers[v]) ==>
         s.workers[w].task != s.workers[v].task
  }

  /** No worker starts a task, and no receiving end is dropped. */
  ghost predicate KeepsEnds(s: System, s': System) {
    && (forall w :: 0 <= w < |s'.workers| && HasTask(s'.workers[w]) ==>
          w < |s.workers| && HasTask(s.workers[w]) && s.workers[w].task == s'.workers[w].task)
    && |s'.tasks| == |s.tasks| && forall t :: 0 <= t < |s.tasks| ==> s'.tasks[t].open == s.tasks[t].open
  }

  lemma EndsKept(s: System, a: Action)
    requires NamesExist(s) && Enabled(s, a)
    requires a.PrepareCall? || a.Dispatch? || a.Unblock? || a.Receive? || a.HandleOther? || a.Flush? || a.HangUp?
    ensures KeepsEnds(s, Apply(s, a))
  {
  }

  lemma KeepingEndsKeepsPaired(s: System, s': System)
    requires Paired(s) && KeepsEnds(s, s')
    ensures Paired(s')
  {
  }

  lemma JoiningKeepsPaired(s: System, s': System, w: nat, task: Task)
    requires Paired(s) && JoinedAs(s, s', w, task) && task.open
    ensures Paired(s')
  {
  }

  /** One worker ends, and with it its task's receiving end if it has one. */
  ghost predicate DropsEnd(s: System, s': System, w: nat) {
    && w < |s.workers| && s'.workers == s.workers[w := Ended] && |s'.tasks| == |s.tasks|
    && forall t :: 0 <= t < |s.tasks| && !(HasTask(s.workers[w]) && s.workers[w].task == t) ==>
         s'.tasks[t].open == s.tasks[t].open
  }

  lemma DroppingKeepsPaired(s: System, s': System, w: nat)
    requires Paired(s) && DropsEnd(s, s', w)
    ensures Paired(s')
  {
  }

  lemma TakingKeepsPaired(s: System, s': System, w: nat, t: nat, event: VoiceEvent)
    requires Paired(s) && TakenAs(s, s', w, t, event) && s.workers[w] == Talking(t)
    ensures Paired(s')
  {
    if event == Closed {
      DroppingKeepsPaired(s, s', w);
    } else {
      KeepingEndsKeepsPaired(s, s');
    }
  }

  lemma StepKeepsPaired(s: System, a: Action)
    requires Paired(s) && NamesExist(s) && Enabled(s, a)
    ensures Paired(Apply(s, a))
  {
    match a {
      case JoinChannel(w, accepted) =>
        JoinedByStep(s, w, accepted);
        JoiningKeepsPaired(s, Apply(s, a), w, JoiningTask(s.workers[w].rx, accepted));
      case TakeEvent(w) =>
        TakenByStep(s, w);
        var t := s.workers[w].task;
        TakingKeepsPaired(s, Apply(s, a), w, t, EmittedBy(s.tasks[t])[s.tasks[t].taken]);
      case LeaveDone(w) => DroppingKeepsPaired(s, Apply(s, a), w);
      case EndWorker(w) => DroppingKeepsPaired(s, Apply(s, a), w);
      case _ =>
        EndsKept(s, a);
        KeepingEndsKeepsPaired(s, Apply(s, a));
    }
  }

  lemma {:induction false} AlwaysPaired(me: nat, actions: seq<Action>, s: System)
    requires Reaches(me, actions, s)
    ensures Paired(s)
    decreases |actions|
  {
    if actions != [] {
      var n := |actions| - 1;
      var before :| Reaches(me, actions[..n], before) && NamesExist(before)
                 && Enabled(before, actions[n]) && s == Apply(before, actions[n]);
      AlwaysPaired(me, actions[..n], before);
      StepKeepsPaired(before, actions[n]);
    }
  }

  // More events than the channel holds

  ghost predicate IsLeaving(s: System, w: nat, t: nat) {
    w < |s.workers| && s.workers[w] == Leaving(t) && t < |s.tasks|
  }

  /** The events the worker will not read fit into the channel. */
  predicate Fits(t: Task) {
    |EmittedBy(t)| - t.taken <= 32
  }

  ghost predicate Hopeless(s: System, w: nat, t: nat) {
    IsLeaving(s, w, t) && s.tasks[t].open && !Fits(s.tasks[t]) && TaskBounds(s.tasks[t])
  }

  /** A leaving worker is left alone, and its task at most puts one more event into the channel. */
  ghost predicate LeavesAlone(s: System, s': System, w: nat, t: nat)
    requires IsLeaving(s, w, t)
  {
    && IsLeaving(s', w, t)
    && (s'.tasks[t] == s.tasks[t]
        || (s'.tasks[t] == s.tasks[t].(flushed := s.tasks[t].flushed + 1) && TaskBounds(s'.tasks[t])))
  }

  lemma OthersGoOn(s: System, a: Action, w: nat, t: nat)
    requires NamesExist(s) && Enabled(s, a) && Hopeless(s, w, t)
    requires !a.TakeEvent? && !a.HangUp? && !a.LeaveDone? && !a.EndWorker?
    ensures LeavesAlone(s, Apply(s, a), w, t)
  {
  }

  lemma OthersStop(s: System, a: Action, w: nat, t: nat)
    requires Paired(s) && NamesExist(s) && Enabled(s, a) && Hopeless(s, w, t)
    requires a.TakeEvent? || a.HangUp? || a.LeaveDone? || a.EndWorker?
    ensures LeavesAlone(s, Apply(s, a), w, t)
  {
  }

  lemma HopelessStays(s: System, a: Action, w: nat, t: nat)
    requires Paired(s) && NamesExist(s) && Enabled(s, a) && Hopeless(s, w, t)
    ensures Hopeless(Apply(s, a), w, t) && Apply(s, a).tasks[t].rx == s.tasks[t].rx
  {
    if a.TakeEvent? || a.HangUp? || a.LeaveDone? || a.EndWorker? {
      OthersStop(s, a, w, t);
    } else {
      OthersGoOn(s, a, w, t);
    }
  }

  lemma {:induction false} HopelessForever(s: System, more: seq<Action>, s': System, w: nat, t: nat)
    requires Invariant(s) && Paired(s) && Leads(s, more, s') && Hopeless(s, w, t)
    ensures Invariant(s') && Paired(s') && Hopeless(s', w, t) && s'.tasks[t].rx == s.tasks[t].rx
    decreases |more|
  {
    if more != [] {
      var init, last := more[..|more| - 1], more[|more| - 1];
      var before :| Leads(s, init, before) && Moves(before, last, s');
      HopelessForever(s, init, before, w, t);
      StepKeepsSystem(before, last);
      StepKeepsPaired(before, last);
      HopelessStays(before, last, w, t);
    }
  }

  // If they fit, the task can be asked to close and return

  /** The first so many of a task's events are in its channel. */
  function Flushed(s: System, t: nat, flushed: nat): System
    requires t < |s.tasks|
  {
    SetTask(s, t, s.tasks[t].(flushed := flushed))
  }

  lemma FlushOne(s: System, t: nat, flushed: nat)
    requires NamesExist(s) && !Aborted(s) && t < |s.tasks| && s.tasks[t].open && Fits(s.tasks[t])
    requires flushed < |EmittedBy(s.tasks[t])|
    ensures Moves(Flushed(s, t, flushed), Flush(t), Flushed(s, t, flushed + 1))
  {
  }

  function Flushes(t: nat, n: nat): seq<Action> {
    if n == 0 then [] else Flushes(t, n - 1) + [Flush(t)]
  }

  /** So many flushes put so many more events into the channel. */
  ghost predicate FlushesLead(s: System, t: nat, n: nat)
    requires t < |s.tasks|
  {
    Leads(s, Flushes(t, n), Flushed(s, t, s.tasks[t].flushed + n))
  }

  lemma NothingFlushed(s: System, t: nat)
    requires t < |s.tasks|
    ensures FlushesLead(s, t, 0)
  {
    assert s.tasks[t := s.tasks[t]] == s.tasks;
  }

  lemma FlushOneMore(s: System, t: nat, n: nat)
    requires NamesExist(s) && !Aborted(s) && t < |s.tasks| && s.tasks[t].open && Fits(s.tasks[t])
    requires s.tasks[t].flushed + n < |EmittedBy(s.tasks[t])| && FlushesLead(s, t, n)
    ensures FlushesLead(s, t, n + 1)
  {
    var before, after := s.tasks[t].flushed + n, s.tasks[t].flushed + (n + 1);
    FlushOne(s, t, before);
    LeadsAlsoBy(s, Flushes(t, n), Flushed(s, t, before), Flush(t), Flushed(s, t, after), Flushes(t, n + 1));
  }

  lemma {:induction false} FlushSome(s: System, t: nat, n: nat)
    requires NamesExist(s) && !Aborted(s) && t < |s.tasks| && s.tasks[t].open && Fits(s.tasks[t])
    requires s.tasks[t].flushed + n <= |EmittedBy(s.tasks[t])|
    ensures FlushesLead(s, t, n)
  {
    if n == 0 {
      NothingFlushed(s, t);
    } else {
      FlushSome(s, t, n - 1);
      FlushOneMore(s, t, n - 1);
    }
  }

  lemma EmitsOne(e: Effect)
    ensures Emits([e]) == if e.Emit? then [e.event] else []
  {
    assert [e][..0] == [];
  }

  function ClosingEffects(gateway: bool): seq<Effect> {
    [Respond(true)] + ((if gateway then [Gateway(CloseGateway)] else []) + [LeaveIntent])
  }

  lemma ClosingEmitsNothing(gateway: bool)
    ensures Emits(ClosingEffects(gateway)) == []
  {
    var close := if gateway then [Gateway(CloseGateway)] else [];
    EmitsAppend([Respond(true)], close + [LeaveIntent]);
    EmitsAppend(close, [LeaveIntent]);
    EmitsOne(Respond(true));
    EmitsOne(Gateway(CloseGateway));
    EmitsOne(LeaveIntent);
  }

  lemma ClosingRun(me: nat, run: Run)
    requires run.status == Running
    ensures var run' := Step(me, run, CloseRequest);
            && run'.status == Finished
            && run'.runner.trace == run.runner.trace + ClosingEffects(run.runner.state.HasGateway())
  {
  }

  /** A running task that is asked to close returns without another event. */
  lemma ClosedTaskIsDone(me: nat, t: Task)
    requires CanHandle(t)
    ensures Done(t.After(me, CloseRequest))
  {
    ClosingRun(me, t.run);
    ClosingEmitsNothing(t.run.runner.state.HasGateway());
    EmitsAppend(t.run.runner.trace, ClosingEffects(t.run.runner.state.HasGateway()));
  }

  // Main results

  /** In some continuation the hang-up is complete. */
  ghost predicate CanComplete(s: System, w: nat) {
    exists more, s' :: Leads(s, more, s') && w < |s'.workers| && s'.workers[w].Ended?
  }

  lemma LeavesOnceDone(s: System, more: seq<Action>, between: System, w: nat, t: nat)
    requires Leads(s, more, between) && NamesExist(between) && !Aborted(between)
    requires IsLeaving(between, w, t) && Done(between.tasks[t])
    ensures CanComplete(s, w)
  {
    var s' := Apply(between, LeaveDone(w));
    LeadsOneMore(s, more, between, LeaveDone(w), s');
  }

  lemma {:induction false} NothingAfterAbort(s: System, more: seq<Action>, s': System)
    requires Aborted(s) && Leads(s, more, s')
    ensures s' == s
    decreases |more|
  {
    if more != [] {
      var init, last := more[..|more| - 1], more[|more| - 1];
      var before :| Leads(s, init, before) && Moves(before, last, s');
      NothingAfterAbort(s, init, before);
    }
  }

  /** All it has emitted is in its channel, so the task can be asked to close, if it is still running. */
  lemma ClosingIsAStep(s: System, w: nat, t: nat) returns (s': System)
    requires NamesExist(s) && !Aborted(s) && IsLeaving(s, w, t) && CanHandle(s.tasks[t])
    ensures Moves(s, HandleOther(t, CloseRequest), s')
    ensures NamesExist(s') && !Aborted(s') && IsLeaving(s', w, t) && Done(s'.tasks[t])
  {
    s' := Apply(s, HandleOther(t, CloseRequest));
    ClosedTaskIsDone(s.me, s.tasks[t]);
    ClosingRun(s.me, s.tasks[t].run);
  }

  lemma LeavesOnceFlushed(s: System, more: seq<Action>, between: System, w: nat, t: nat)
    requires Leads(s, more, between) && NamesExist(between) && !Aborted(between)
    requires IsLeaving(between, w, t) && between.tasks[t].flushed == |EmittedBy(between.tasks[t])|
    ensures CanComplete(s, w)
  {
    if CanHandle(between.tasks[t]) {
      var closed := ClosingIsAStep(between, w, t);
      LeadsOneMore(s, more, between, HandleOther(t, CloseRequest), closed);
      LeavesOnceDone(s, more + [HandleOther(t, CloseRequest)], closed, w, t);
    } else {
      LeavesOnceDone(s, more, between, w, t);
    }
  }

  lemma FittingCanComplete(s: System, w: nat, t: nat)
    requires NamesExist(s) && !Aborted(s)
    requires IsLeaving(s, w, t) && s.tasks[t].open && Fits(s.tasks[t]) && TaskBounds(s.tasks[t])
    ensures CanComplete(s, w)
  {
    var n := |EmittedBy(s.tasks[t])| - s.tasks[t].flushed;
    FlushSome(s, t, n);
    LeavesOnceFlushed(s, Flushes(t, n), Flushed(s, t, s.tasks[t].flushed + n), w, t);
  }

  /**
    Once a worker is leaving, its hang-up can complete, in whatever continuation, if and only if the events of its task
    that it has not read fit into the channel and no task has panicked.
   */
  lemma {:induction false} HangUpCompletesExactly(me: nat, actions: seq<Action>, s: System, w: nat)
    requires Reaches(me, actions, s) && w < |s.workers| && s.workers[w].Leaving?
    ensures s.workers[w].task < |s.tasks|
    ensures CanComplete(s, w) <==> Fits(s.tasks[s.workers[w].task]) && !Aborted(s)
  {
    EveryReachableState(me, actions, s);
    AlwaysPaired(me, actions, s);
    var t := s.workers[w].task;
    if Fits(s.tasks[t]) && !Aborted(s) {
      FittingCanComplete(s, w, t);
    } else if CanComplete(s, w) {
      var more, s' :| Leads(s, more, s') && w < |s'.workers| && s'.workers[w].Ended?;
      if Aborted(s) {
        NothingAfterAbort(s, more, s');
      } else {
        HopelessForever(s, more, s', w, t);
      }
    }
  }

  lemma StepKeepsGuild(s: System, a: Action, r: nat)
    requires NamesExist(s) && Enabled(s, a) && r < |s.subs|
    ensures r < |Apply(s, a).subs| && Apply(s, a).subs[r].guild == s.subs[r].guild
  {
  }

  lemma {:induction false} SubscriptionsKeepGuild(s: System, more: seq<Action>, s': System, r: nat)
    requires Leads(s, more, s') && r < |s.subs|
    ensures r < |s'.subs| && s'.subs[r].guild == s.subs[r].guild
    decreases |more|
  {
    if more != [] {
      var init, last := more[..|more| - 1], more[|more| - 1];
      var before :| Leads(s, init, before) && Moves(before, last, s');
      SubscriptionsKeepGuild(s, init, before, r);
      StepKeepsGuild(before, last, r);
    }
  }

  /** If they do not fit, the worker leaves for good and the guild is refused for good, whatever happens. */
  lemma {:induction false} RefusedForGood(me: nat, actions: seq<Action>, s: System, w: nat, more: seq<Action>, s': System)
    requires Reaches(me, actions, s) && w < |s.workers| && s.workers[w].Leaving? && s.workers[w].task < |s.tasks|
    requires !Fits(s.tasks[s.workers[w].task]) && Leads(s, more, s')
    ensures var rx := s.tasks[s.workers[w].task].rx;
            && w < |s'.workers| && s'.workers[w] == s.workers[w]
            && rx < |s.subs| && Refused(s', s.subs[rx].guild)
  {
    var t := s.workers[w].task;
    EveryReachableState(me, actions, s);
    AlwaysPaired(me, actions, s);
    HopelessForever(s, more, s', w, t);
    SubscriptionsKeepGuild(s, more, s', s.tasks[t].rx);
    assert HeldByTask(s', s'.tasks[t].rx);
  }

  // It does happen

  /** A call in guild 2 has joined, and its task has heard both updates and opened its gateway. */
  function Opening(): seq<Action> {
    [PrepareCall(2, true)] + [JoinChannel(0, true)]
    + [Dispatch(2, VoiceState(StateUpdate(1, Some(2), Some(3), "session")))] + [Receive(0)]
    + [Dispatch(2, VoiceServer(ServerUpdate(Some("host"), "token")))] + [Receive(0)]
  }

  /** Then so many users have joined, which the worker has not been told yet. */
  function Filled(n: nat): seq<Action> {
    if n == 0 then Opening() else Filled(n - 1) + [HandleOther(0, ClientConnect(9, 0))] + [Flush(0)]
  }

  ghost predicate WaitsForReady(t: Task) {
    t.run.status == Running && t.run.runner.state.WaitingForReady? && !t.run.runner.closeRequested
  }

  ghost predicate Filling(s: System, n: nat) {
    && s.me == 1 && NamesExist(s) && s.workers == [Talking(0)] && |s.tasks| == 1
    && var t := s.tasks[0];
       t.open && t.taken == 0 && t.flushed == |EmittedBy(t)| == n && WaitsForReady(t)
  }

  function Subscribed(queue: seq<GlobalEvent>, got: seq<GlobalEvent>): seq<Subscription> {
    [Subscription(2, 0, queue, got)]
  }

  /** Guild 2's events have gone to the one task, except the last ones, which are in its channel. */
  ghost predicate Opened(s: System, queue: seq<GlobalEvent>, got: seq<GlobalEvent>, run: Run) {
    && s == System(1, s.log, false, map[2 := 0], Subscribed(queue, got), [Talking(0)], s.tasks, [])
    && |s.tasks| == 1 && s.tasks[0] == Task(0, true, s.tasks[0].history, run, 0, 0, true)
    && run.status == Running && Emits(run.runner.trace) == []
  }

  lemma DispatchOpens(s: System, got: seq<GlobalEvent>, run: Run, event: GlobalEvent) returns (s': System)
    requires Opened(s, [], got, run)
    ensures Moves(s, Dispatch(2, event), s') && Opened(s', [event], got, run)
  {
    assert HeldByTask(s.(log := s.log + [(2, event)]), 0);
    s' := Apply(s, Dispatch(2, event));
    assert [] + [event] == [event];
    assert s'.subs == Subscribed([event], got);
  }

  lemma ReceiveOpens(s: System, got: seq<GlobalEvent>, run: Run, event: GlobalEvent) returns (s': System)
    requires Opened(s, [event], got, run)
    requires var run' := Step(1, run, Global(event)); run'.status == Running && Emits(run'.runner.trace) == []
    ensures Moves(s, Receive(0), s') && Opened(s', [], got + [event], Step(1, run, Global(event)))
  {
    s' := Apply(s, Receive(0));
    assert [event][1..] == [];
    assert s'.subs == Subscribed([], got + [event]);
  }

  lemma JoinOpens() returns (s: System)
    ensures Reaches(1, [PrepareCall(2, true)] + [JoinChannel(0, true)], s) && Opened(s, [], [], Begin(true))
  {
    var s0 := System(1, [], false, map[], [], [], [], []);
    var s1 := Apply(s0, PrepareCall(2, true));
    s := Apply(s1, JoinChannel(0, true));
    EmitsOne(JoinIntent(true));
    assert Reaches(1, [], s0);
    ReachesOneMore(1, [], s0, PrepareCall(2, true), s1);
    assert [] + [PrepareCall(2, true)] == [PrepareCall(2, true)];
    ReachesOneMore(1, [PrepareCall(2, true)], s1, JoinChannel(0, true), s);
  }

  lemma OpeningRun()
    ensures var first := Step(1, Begin(true), Global(VoiceState(StateUpdate(1, Some(2), Some(3), "session"))));
            var second := Step(1, first, Global(VoiceServer(ServerUpdate(Some("host"), "token"))));
            && first.status == second.status == Running && second.runner.state.WaitingForReady?
            && Emits(first.runner.trace) == [] && Emits(second.runner.trace) == [] && !second.runner.closeRequested
  {
    var identify := Gateway(SendIdentify(Identity("host", 2, "session", "token")));
    EmitsOne(JoinIntent(true));
    EmitsOne(identify);
    EmitsAppend([JoinIntent(true)], [identify]);
  }

  lemma OpeningReached() returns (s: System)
    ensures Reaches(1, Opening(), s) && Filling(s, 0)
  {
    var state, server := VoiceState(StateUpdate(1, Some(2), Some(3), "session")), VoiceServer(ServerUpdate(Some("host"), "token"));
    var joined := [PrepareCall(2, true)] + [JoinChannel(0, true)];
    var first := Step(1, Begin(true), Global(state));
    OpeningRun();
    var s2 := JoinOpens();
    var s3 := DispatchOpens(s2, [], Begin(true), state);
    ReachesOneMore(1, joined, s2, Dispatch(2, state), s3);
    var s4 := ReceiveOpens(s3, [], Begin(true), state);
    ReachesOneMore(1, joined + [Dispatch(2, state)], s3, Receive(0), s4);
    var s5 := DispatchOpens(s4, [] + [state], first, server);
    ReachesOneMore(1, joined + [Dispatch(2, state)] + [Receive(0)], s4, Dispatch(2, server), s5);
    s := ReceiveOpens(s5, [] + [state], first, server);
    ReachesOneMore(1, joined + [Dispatch(2, state)] + [Receive(0)] + [Dispatch(2, server)], s5, Receive(0), s);
  }

  lemma OneMoreUser(t: Task)
    requires WaitsForReady(t)
    ensures var t' := t.After(1, ClientConnect(9, 0)); WaitsForReady(t') && |EmittedBy(t')| == |EmittedBy(t)| + 1
  {
    EmitsAppend(t.run.runner.trace, [Emit(UserJoined(9, 0))]);
    EmitsOne(Emit(UserJoined(9, 0)));
  }

  /** One more event than the channel has had. */
  ghost predicate Overfull(s: System, n: nat) {
    && s.me == 1 && NamesExist(s) && s.workers == [Talking(0)] && |s.tasks| == 1
    && var t := s.tasks[0];
       t.open && t.taken == 0 && t.flushed == n && |EmittedBy(t)| == n + 1 && WaitsForReady(t)
  }

  lemma FlushFills(s: System, n: nat) returns (s': System)
    requires Overfull(s, n) && n < CHANNEL_CAPACITY
    ensures Moves(s, Flush(0), s') && Filling(s', n + 1)
  {
    s' := Apply(s, Flush(0));
  }

  lemma UserJoins(s: System, n: nat) returns (s': System)
    requires Filling(s, n)
    ensures Moves(s, HandleOther(0, ClientConnect(9, 0)), s')
    ensures Overfull(s', n)
  {
    OneMoreUser(s.tasks[0]);
    s' := Apply(s, HandleOther(0, ClientConnect(9, 0)));
  }

  lemma FillOneMore(actions: seq<Action>, before: System, n: nat) returns (s: System)
    requires Reaches(1, actions, before) && Filling(before, n) && n < CHANNEL_CAPACITY
    ensures Reaches(1, actions + [HandleOther(0, ClientConnect(9, 0))] + [Flush(0)], s) && Filling(s, n + 1)
  {
    var joined := UserJoins(before, n);
    ReachesOneMore(1, actions, before, HandleOther(0, ClientConnect(9, 0)), joined);
    s := FlushFills(joined, n);
    ReachesOneMore(1, actions + [HandleOther(0, ClientConnect(9, 0))], joined, Flush(0), s);
  }

  lemma {:induction false} FillingReached(n: nat) returns (s: System)
    requires n <= CHANNEL_CAPACITY
    ensures Reaches(1, Filled(n), s) && Filling(s, n)
  {
    if n == 0 {
      s := OpeningReached();
    } else {
      var before := FillingReached(n - 1);
      s := FillOneMore(Filled(n - 1), before, n - 1);
    }
  }

  /** 33 users join while the worker is busy, and then the call is hung up: the guild is refused for good. */
  lemma HopelessHangUpHappens() returns (s: System)
    ensures Reaches(1, Filled(32) + [HandleOther(0, ClientConnect(9, 0))] + [HangUp(0)], s)
    ensures s.workers == [Leaving(0)] && |s.tasks| == 1 && !Fits(s.tasks[0])
  {
    var before := FillingReached(32);
    var joined := UserJoins(before, 32);
    ReachesOneMore(1, Filled(32), before, HandleOther(0, ClientConnect(9, 0)), joined);
    s := Apply(joined, HangUp(0));
    ReachesOneMore(1, Filled(32) + [HandleOther(0, ClientConnect(9, 0))], joined, HangUp(0), s);
  }
}
