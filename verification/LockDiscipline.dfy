/**
  Who waits for whom: Asterisk's threads take channel locks and await replies
  under them, the Discord thread serves their requests, the queue thread takes
  one lock at a time to write.
 */
module LockDiscipline {
  import opened Prelude

  /** An Asterisk thread: it awaits a reply only while it holds a channel's lock. */
  datatype AsteriskThread = Idle | WaitsForLock(channel: nat) | Running(channel: nat) | AwaitsReply(channel: nat)

  /** A thread that takes channel locks for a write: the queue thread, and the Discord thread in direct calls. */
  datatype Writer = NotWriting | WantsLock(channel: nat) | Writing(channel: nat)

  datatype System = System(
    asterisk: seq<AsteriskThread>,
    discord: Writer,
    queue: Writer,
    requested: seq<nat>,
    written: seq<nat>)

  datatype Thread = Asterisk(index: nat) | Discord | Queue

  ghost predicate Exists(s: System, t: Thread) {
    t.Asterisk? ==> t.index < |s.asterisk|
  }

  ghost predicate Holds(s: System, t: Thread, c: nat)
    requires Exists(s, t)
  {
    match t
    case Asterisk(i) => s.asterisk[i] == Running(c) || s.asterisk[i] == AwaitsReply(c)
    case Discord => s.discord == Writing(c)
    case Queue => s.queue == Writing(c)
  }

  ghost predicate WantsLockOf(s: System, t: Thread, c: nat)
    requires Exists(s, t)
  {
    match t
    case Asterisk(i) => s.asterisk[i] == WaitsForLock(c)
    case Discord => s.discord == WantsLock(c)
    case Queue => s.queue == WantsLock(c)
  }

  ghost predicate Free(s: System, c: nat) {
    forall t :: Exists(s, t) ==> !Holds(s, t, c)
  }

  ghost predicate Held(s: System, t: Thread, u: Thread)
    requires Exists(s, t) && Exists(s, u)
  {
    exists c :: WantsLockOf(s, t, c) && Holds(s, u, c)
  }

  /** The first thread cannot go on before the second one does something. */
  ghost predicate WaitsFor(s: System, t: Thread, u: Thread) {
    && Exists(s, t) && Exists(s, u)
    && (Held(s, t, u) || (t.Asterisk? && s.asterisk[t.index].AwaitsReply? && u == Discord))
  }

  datatype Action =
    // New work
    | Want(thread: nat, channel: nat)
    | Send(thread: nat)
    | RequestWrite(channel: nat)
    | CallDirectly(channel: nat)
    // Getting work done
    | Acquire(waiting: Thread)
    | Release(holding: Thread)
    | Reply(asker: nat)
    | Receive

  predicate Work(a: Action) {
    a.Acquire? || a.Release? || a.Reply? || a.Receive?
  }

  ghost predicate Enabled(s: System, a: Action) {
    match a
    case Want(i, _) => i < |s.asterisk| && s.asterisk[i] == Idle
    case Send(i) => i < |s.asterisk| && s.asterisk[i].Running?
    case RequestWrite(_) => s.discord == NotWriting
    case CallDirectly(_) => s.discord == NotWriting
    case Acquire(t) => Exists(s, t) && exists c :: WantsLockOf(s, t, c) && Free(s, c)
    case Release(t) => Exists(s, t) && (if t.Asterisk? then s.asterisk[t.index].Running? else exists c :: Holds(s, t, c))
    case Reply(i) => s.discord == NotWriting && i < |s.asterisk| && s.asterisk[i].AwaitsReply?
    case Receive => s.queue == NotWriting && s.requested != []
  }

  ghost function Apply(s: System, a: Action): System
    requires Enabled(s, a)
  {
    match a
    case Want(i, c) => s.(asterisk := s.asterisk[i := WaitsForLock(c)])
    case Send(i) => s.(asterisk := s.asterisk[i := AwaitsReply(s.asterisk[i].channel)])
    case RequestWrite(c) => s.(requested := s.requested + [c])
    case CallDirectly(c) => s.(discord := WantsLock(c))
    case Acquire(Asterisk(i)) => s.(asterisk := s.asterisk[i := Running(s.asterisk[i].channel)])
    case Acquire(Discord) => s.(discord := Writing(s.discord.channel))
    case Acquire(Queue) => s.(queue := Writing(s.queue.channel))
    case Release(Asterisk(i)) => s.(asterisk := s.asterisk[i := Idle])
    case Release(Discord) => s.(discord := NotWriting)
    case Release(Queue) => s.(queue := NotWriting, written := s.written + [s.queue.channel])
    case Reply(i) => s.(asterisk := s.asterisk[i := Running(s.asterisk[i].channel)])
    case Receive => s.(queue := WantsLock(s.requested[0]), requested := s.requested[1..])
  }

  ghost predicate Initial(s: System) {
    && (forall i :: 0 <= i < |s.asterisk| ==> s.asterisk[i] == Idle)
    && s.discord == NotWriting && s.queue == NotWriting && s.requested == [] && s.written == []
  }

  ghost predicate Reaches(s: System, actions: seq<Action>, end: System)
    decreases |actions|
  {
    if actions == [] then end == s
    else Enabled(s, actions[0]) && Reaches(Apply(s, actions[0]), actions[1..], end)
  }

  // Locks exclude

  ghost predicate Exclusive(s: System) {
    forall t, u, c :: Exists(s, t) && Exists(s, u) && Holds(s, t, c) && Holds(s, u, c) ==> t == u
  }

  lemma StepKeepsExclusive(s: System, a: Action)
    requires Exclusive(s) && Enabled(s, a)
    ensures Exclusive(Apply(s, a))
  {
    var s' := Apply(s, a);
    forall t, u, c | Exists(s', t) && Exists(s', u) && Holds(s', t, c) && Holds(s', u, c)
      ensures t == u
    {
      if a.Acquire? {
        assert forall v :: v != a.waiting && Exists(s, v) && Holds(s', v, c) ==> Holds(s, v, c);
      } else {
        assert Holds(s, t, c) && Holds(s, u, c);
      }
    }
  }

  lemma {:induction false} LocksExclude(s: System, actions: seq<Action>, end: System)
    requires Exclusive(s) && Reaches(s, actions, end)
    ensures Exclusive(end)
    decreases |actions|
  {
    if actions != [] {
      StepKeepsExclusive(s, actions[0]);
      LocksExclude(Apply(s, actions[0]), actions[1..], end);
    }
  }

  // Cycles

  ghost predicate Path(s: System, threads: seq<Thread>) {
    forall i :: 0 <= i < |threads| - 1 ==> WaitsFor(s, threads[i], threads[i + 1])
  }

  ghost predicate Deadlocked(s: System) {
    exists threads: seq<Thread> :: |threads| > 1 && Path(s, threads) && threads[0] == threads[|threads| - 1]
  }

  /** A direct call wants a lock whose holder awaits a reply from the very thread that makes the call. */
  ghost predicate Knot(s: System) {
    s.discord.WantsLock? && exists i :: 0 <= i < |s.asterisk| && s.asterisk[i] == AwaitsReply(s.discord.channel)
  }

  /** How many waits lie ahead of a thread, when nothing is knotted. */
  ghost function Ahead(s: System, t: Thread): nat
    requires Exists(s, t)
  {
    match t
    case Discord => if s.discord.WantsLock? then 1 else 0
    case Queue => if s.queue.WantsLock? then 3 else 0
    case Asterisk(i) =>
      match s.asterisk[i]
      case WaitsForLock(_) => 3
      case AwaitsReply(_) => 2
      case _ => 0
  }

  lemma WaitingGoesDown(s: System, t: Thread, u: Thread)
    requires WaitsFor(s, t, u) && !Knot(s)
    ensures Ahead(s, u) < Ahead(s, t)
  {
    if Held(s, t, u) {
      var c :| WantsLockOf(s, t, c) && Holds(s, u, c);
    }
  }

  lemma {:induction false} PathGoesDown(s: System, threads: seq<Thread>)
    requires |threads| > 1 && Path(s, threads) && !Knot(s)
    ensures Exists(s, threads[0]) && Exists(s, threads[|threads| - 1])
    ensures Ahead(s, threads[|threads| - 1]) < Ahead(s, threads[0])
  {
    WaitingGoesDown(s, threads[0], threads[1]);
    if |threads| > 2 {
      assert forall i :: 0 <= i < |threads[1..]| - 1 ==> threads[1..][i] == threads[i + 1];
      PathGoesDown(s, threads[1..]);
    }
  }

  /** The only way to deadlock, in any state whatever. */
  lemma DeadlockExactly(s: System)
    ensures Deadlocked(s) <==> Knot(s)
  {
    if Knot(s) {
      var i :| 0 <= i < |s.asterisk| && s.asterisk[i] == AwaitsReply(s.discord.channel);
      var threads := [Discord, Asterisk(i), Discord];
      assert WantsLockOf(s, Discord, s.discord.channel) && Holds(s, Asterisk(i), s.discord.channel);
      assert Path(s, threads);
    } else if Deadlocked(s) {
      var threads: seq<Thread> :| |threads| > 1 && Path(s, threads) && threads[0] == threads[|threads| - 1];
      PathGoesDown(s, threads);
    }
  }

  ghost predicate NoDirectCalls(actions: seq<Action>) {
    forall i :: 0 <= i < |actions| ==> !actions[i].CallDirectly?
  }

  /** If every write goes through the queue thread, the Discord thread never waits for a lock. */
  lemma {:induction false} DiscordNeverWaits(s: System, actions: seq<Action>, end: System)
    requires s.discord == NotWriting && NoDirectCalls(actions) && Reaches(s, actions, end)
    ensures end.discord == NotWriting
    decreases |actions|
  {
    if actions != [] {
      DiscordNeverWaits(Apply(s, actions[0]), actions[1..], end);
    }
  }

  lemma {:induction false} NoDeadlockWithoutDirectCalls(s: System, actions: seq<Action>, end: System)
    requires Initial(s) && NoDirectCalls(actions) && Reaches(s, actions, end)
    ensures !Deadlocked(end)
  {
    DiscordNeverWaits(s, actions, end);
    DeadlockExactly(end);
  }

  /** The schedule that the queue thread is there to avoid, with the direct call on answering or hanging up. */
  lemma DirectCallDeadlocks()
    ensures var s := System([Idle], NotWriting, NotWriting, [], []);
            var actions := [Want(0, 7), Acquire(Asterisk(0)), CallDirectly(7), Send(0)];
            Initial(s) && exists end :: Reaches(s, actions, end) && Deadlocked(end)
  {
    var s0 := System([Idle], NotWriting, NotWriting, [], []);
    var s1 := Apply(s0, Want(0, 7));
    assert WantsLockOf(s1, Asterisk(0), 7) && Free(s1, 7);
    var s2 := Apply(s1, Acquire(Asterisk(0)));
    var s3 := Apply(s2, CallDirectly(7));
    var s4 := Apply(s3, Send(0));
    assert s4.asterisk[0] == AwaitsReply(7);
    DeadlockExactly(s4);
    assert Reaches(s3, [Send(0)], s4) by { assert Reaches(s4, [Send(0)][1..], s4); }
    assert [CallDirectly(7), Send(0)][1..] == [Send(0)];
    assert Reaches(s2, [CallDirectly(7), Send(0)], s4);
    assert [Acquire(Asterisk(0)), CallDirectly(7), Send(0)][1..] == [CallDirectly(7), Send(0)];
    assert Reaches(s1, [Acquire(Asterisk(0)), CallDirectly(7), Send(0)], s4);
    var actions := [Want(0, 7), Acquire(Asterisk(0)), CallDirectly(7), Send(0)];
    assert actions[1..] == [Acquire(Asterisk(0)), CallDirectly(7), Send(0)];
    assert Reaches(s0, actions, s4);
  }

  /** Once knotted, knotted for good: no reply, no lock, whatever the other threads do. */
  lemma {:induction false} KnottedForGood(s: System, actions: seq<Action>, end: System)
    requires Knot(s) && Reaches(s, actions, end)
    ensures Knot(end) && end.discord == s.discord
    decreases |actions|
  {
    if actions != [] {
      var i :| 0 <= i < |s.asterisk| && s.asterisk[i] == AwaitsReply(s.discord.channel);
      var s' := Apply(s, actions[0]);
      if actions[0] == Acquire(Discord) {
        assert Holds(s, Asterisk(i), s.discord.channel);
      }
      assert s'.asterisk[i] == AwaitsReply(s'.discord.channel);
      KnottedForGood(s', actions[1..], end);
    }
  }

  // Progress

  function ThreadWork(t: AsteriskThread): nat {
    match t
    case Idle => 0
    case Running(_) => 1
    case _ => 2
  }

  function WriterWork(w: Writer): nat {
    match w
    case NotWriting => 0
    case Writing(_) => 1
    case WantsLock(_) => 2
  }

  function ThreadsWork(threads: seq<AsteriskThread>): nat {
    if threads == [] then 0 else ThreadWork(threads[0]) + ThreadsWork(threads[1..])
  }

  /** How many working steps are left if no new work arrives. */
  function WorkLeft(s: System): nat {
    ThreadsWork(s.asterisk) + WriterWork(s.discord) + WriterWork(s.queue) + 3 * |s.requested|
  }

  lemma {:induction false} ThreadsWorkUpdate(threads: seq<AsteriskThread>, i: nat, t: AsteriskThread)
    requires i < |threads|
    ensures ThreadsWork(threads[i := t]) == ThreadsWork(threads) - ThreadWork(threads[i]) + ThreadWork(t)
  {
    if i > 0 {
      assert threads[i := t][1..] == threads[1..][i - 1 := t];
      ThreadsWorkUpdate(threads[1..], i - 1, t);
    } else {
      assert threads[i := t][1..] == threads[1..];
    }
  }

  lemma {:induction false} SomeThreadWorks(threads: seq<AsteriskThread>) returns (i: nat)
    requires ThreadsWork(threads) > 0
    ensures i < |threads| && threads[i] != Idle
  {
    if threads[0] != Idle {
      i := 0;
    } else {
      var j := SomeThreadWorks(threads[1..]);
      i := j + 1;
    }
  }

  lemma WorkStepsCount(s: System, a: Action)
    requires Enabled(s, a) && Work(a)
    ensures WorkLeft(Apply(s, a)) == WorkLeft(s) - 1
  {
    match a {
      case Acquire(Asterisk(i)) => ThreadsWorkUpdate(s.asterisk, i, Running(s.asterisk[i].channel));
      case Release(Asterisk(i)) => ThreadsWorkUpdate(s.asterisk, i, Idle);
      case Reply(i) => ThreadsWorkUpdate(s.asterisk, i, Running(s.asterisk[i].channel));
      case _ =>
    }
  }

  /** Whoever holds a lock can step or be answered, unless a direct call is waiting for another lock. */
  lemma HolderCanStep(s: System, t: Thread, c: nat) returns (a: Action)
    requires Exists(s, t) && Holds(s, t, c) && !Knot(s) && (s.discord.WantsLock? ==> s.discord.channel == c)
    ensures Work(a) && Enabled(s, a)
  {
    if s.discord.Writing? {
      a := Release(Discord);
      assert Holds(s, Discord, s.discord.channel);
    } else if t.Asterisk? && s.asterisk[t.index].AwaitsReply? {
      a := Reply(t.index);
    } else {
      a := Release(t);
    }
  }

  lemma WaiterCanBeHelped(s: System, t: Thread, c: nat) returns (a: Action)
    requires Exists(s, t) && WantsLockOf(s, t, c) && !Knot(s) && (s.discord.WantsLock? ==> t == Discord)
    ensures Work(a) && Enabled(s, a)
  {
    if Free(s, c) {
      a := Acquire(t);
    } else {
      var u :| Exists(s, u) && Holds(s, u, c);
      a := HolderCanStep(s, u, c);
    }
  }

  /** As long as anything is left to do and nothing is knotted, some thread can do something. */
  lemma SomeoneCanStep(s: System) returns (a: Action)
    requires WorkLeft(s) > 0 && !Knot(s)
    ensures Work(a) && Enabled(s, a)
  {
    if s.discord.WantsLock? {
      a := WaiterCanBeHelped(s, Discord, s.discord.channel);
    } else if s.discord.Writing? {
      a := HolderCanStep(s, Discord, s.discord.channel);
    } else if s.queue.WantsLock? {
      a := WaiterCanBeHelped(s, Queue, s.queue.channel);
    } else if s.queue.Writing? {
      a := HolderCanStep(s, Queue, s.queue.channel);
    } else if s.requested != [] {
      a := Receive;
    } else {
      var i := SomeThreadWorks(s.asterisk);
      if s.asterisk[i].WaitsForLock? {
        a := WaiterCanBeHelped(s, Asterisk(i), s.asterisk[i].channel);
      } else {
        a := HolderCanStep(s, Asterisk(i), s.asterisk[i].channel);
      }
    }
  }

  ghost predicate OnlyWork(actions: seq<Action>) {
    forall i :: 0 <= i < |actions| ==> Work(actions[i])
  }

  ghost predicate Stuck(s: System) {
    forall a :: Work(a) ==> !Enabled(s, a)
  }

  function InProgress(w: Writer): seq<nat> {
    if w.NotWriting? then [] else [w.channel]
  }

  /** What has been written, is being written and is still to be written. */
  function Stream(s: System): seq<nat> {
    s.written + InProgress(s.queue) + s.requested
  }

  lemma {:induction false} WorkKeepsStream(s: System, actions: seq<Action>, end: System)
    requires OnlyWork(actions) && Reaches(s, actions, end)
    ensures Stream(end) == Stream(s)
    ensures |actions| + WorkLeft(end) == WorkLeft(s)
    decreases |actions|
  {
    if actions != [] {
      var s' := Apply(s, actions[0]);
      WorkStepsCount(s, actions[0]);
      assert Stream(s') == Stream(s);
      WorkKeepsStream(s', actions[1..], end);
    }
  }

  /** The channels of these requests, in order. */
  function Requests(actions: seq<Action>): seq<nat>
    decreases |actions|
  {
    if actions == [] then []
    else (if actions[0].RequestWrite? then [actions[0].channel] else []) + Requests(actions[1..])
  }

  lemma StepExtendsStream(s: System, a: Action)
    requires Enabled(s, a)
    ensures Stream(Apply(s, a)) == Stream(s) + if a.RequestWrite? then [a.channel] else []
  {
  }

  lemma StreamGoesOn(before: seq<nat>, one: seq<nat>, rest: seq<nat>, between: seq<nat>, after: seq<nat>)
    requires between == before + one && after == between + rest
    ensures after == before + (one + rest)
  {
    Regroup(before, one, rest);
  }

  /** Whatever any thread does: what is written, being written and waiting is what was requested, in order. */
  lemma {:induction false} RequestsAreStreamed(s: System, actions: seq<Action>, end: System)
    requires Reaches(s, actions, end)
    ensures Stream(end) == Stream(s) + Requests(actions)
    decreases |actions|
  {
    if actions == [] {
      assert Stream(s) + [] == Stream(s);
    } else {
      var one := if actions[0].RequestWrite? then [actions[0].channel] else [];
      StepExtendsStream(s, actions[0]);
      RequestsAreStreamed(Apply(s, actions[0]), actions[1..], end);
      StreamGoesOn(Stream(s), one, Requests(actions[1..]), Stream(Apply(s, actions[0])), Stream(end));
    }
  }

  /** Work alone ties no knot, and dissolves none. */
  lemma {:induction false} WorkKeepsKnot(s: System, actions: seq<Action>, end: System)
    requires OnlyWork(actions) && Reaches(s, actions, end)
    ensures Knot(end) <==> Knot(s)
    decreases |actions|
  {
    if Knot(s) {
      KnottedForGood(s, actions, end);
    } else if actions != [] {
      assert !Knot(Apply(s, actions[0]));
      WorkKeepsKnot(Apply(s, actions[0]), actions[1..], end);
    }
  }

  lemma {:induction false} NothingLeft(threads: seq<AsteriskThread>)
    ensures ThreadsWork(threads) == 0 <==> forall i :: 0 <= i < |threads| ==> threads[i] == Idle
  {
    if threads != [] {
      NothingLeft(threads[1..]);
      assert threads == [threads[0]] + threads[1..];
    }
  }

  /** Every reply has come, every direct call has returned, and every requested write was made, in order. */
  ghost predicate AllDone(s: System, stream: seq<nat>) {
    && (forall i :: 0 <= i < |s.asterisk| ==> s.asterisk[i] == Idle)
    && s.discord == NotWriting && s.queue == NotWriting && s.requested == [] && s.written == stream
  }

  lemma DoneMeansNoneLeft(s: System)
    ensures WorkLeft(s) == 0 <==> AllDone(s, Stream(s))
  {
    NothingLeft(s.asterisk);
    if WorkLeft(s) == 0 {
      assert Stream(s) == s.written;
    }
  }

  lemma NoneLeftMeansStuck(s: System)
    requires WorkLeft(s) == 0
    ensures Stuck(s)
  {
    forall a | Work(a)
      ensures !Enabled(s, a)
    {
      if Enabled(s, a) {
        WorkStepsCount(s, a);
      }
    }
  }

  /**
    From any state whatever, direct calls under way included, and whichever thread the scheduler picks: the work at hand
    gets stuck after a bounded number of steps, and then nothing is left undone if and only if there was no knot.
   */
  lemma {:induction false} WorkFinishesExactly(s: System, actions: seq<Action>, end: System)
    requires OnlyWork(actions) && Reaches(s, actions, end)
    ensures |actions| + WorkLeft(end) == WorkLeft(s)
    ensures WorkLeft(end) == 0 <==> AllDone(end, Stream(s))
    ensures AllDone(end, Stream(s)) ==> Stuck(end)
    ensures Stuck(end) ==> (AllDone(end, Stream(s)) <==> !Knot(s))
  {
    WorkKeepsStream(s, actions, end);
    WorkKeepsKnot(s, actions, end);
    DoneMeansNoneLeft(end);
    if WorkLeft(end) == 0 {
      NoneLeftMeansStuck(end);
    } else if !Knot(end) {
      var a := SomeoneCanStep(end);
    }
  }

  /**
    So from any state reached without direct calls the work at hand takes a fixed number of steps, and when nobody can
    go on all of it is done.
   */
  lemma {:induction false} WorkAlwaysFinishes(s: System, before: seq<Action>, s': System, actions: seq<Action>, end: System)
    requires Initial(s) && NoDirectCalls(before) && Reaches(s, before, s')
    requires OnlyWork(actions) && Reaches(s', actions, end)
    ensures |actions| <= WorkLeft(s')
    ensures Stuck(end) <==> |actions| == WorkLeft(s')
    ensures Stuck(end) ==> AllDone(end, Stream(s'))
  {
    DiscordNeverWaits(s, before, s');
    WorkFinishesExactly(s', actions, end);
  }
}
