/**
  The worker of one call: it serves the channel driver's requests, follows the
  voice task's events and hands mixed frames to the queue thread.

  `Step` gives the meaning of one turn of its loop on values; class `CallWorker`
  is proved against it. What others answer comes in with the event.
 */
module CallWorkers {
  import opened Prelude
  import opened ChannelOrder
  import opened QueueThreads
  import opened Samples
  import VoiceTask

  type VoiceEvent = VoiceTask.VoiceEvent

  /** What the worker knows of the voice task: the receiver to start it with, or that it runs, or how the call ended. */
  datatype Voice = Prepare(rx: nat) | VoiceStarted | ShuttingDown(hungUpLocally: bool)

  datatype CallRequest =
    | JoinChannel
    | WriteFrame(timestamp: U32, taken: bool)
    | HangUp
    | FixUp(newChannel: nat)

  datatype WorkerEvent =
    | ClientRequest(id: nat, request: CallRequest)
    | NoMoreRequests
    | CallEvent(event: VoiceEvent)
    | NoMoreEvents
    | MixedPacket(frame: seq<Sample>, queueThreadAlive: bool)

  datatype TaskAction = StartTask(rx: nat) | ForwardWrite(timestamp: U32) | LeaveAndClose

  /** Requests are answered by the name they came with. */
  datatype Reply = Reply(id: nat, ok: bool)

  const AST_CONTROL_ANSWER: nat := 4

  /** Frames go through the queue thread; the worker answers and hangs up with calls of its own. */
  function AskFrame(channel: nat, frame: seq<Sample>): Issued {
    Requested(ChannelWriteRequest(channel, FrameWrite(frame)))
  }

  function CallAnswer(channel: nat): Issued {
    Called(ChannelWriteRequest(channel, Control(AST_CONTROL_ANSWER)))
  }

  function CallHangup(channel: nat): Issued {
    Called(ChannelWriteRequest(channel, Hangup))
  }

  /** The worker's state and what it has issued to each of its peers, in order. */
  datatype Call = Call(
    voice: Voice,
    channel: nat,
    actions: seq<TaskAction>,
    replies: seq<Reply>,
    issued: seq<Issued>,
    mixer: seq<VoiceEvent>)
  {
    function Act(a: TaskAction): Call {
      this.(actions := actions + [a])
    }

    function Answer(id: nat, ok: bool): Call {
      this.(replies := replies + [Reply(id, ok)])
    }

    function Write(w: Issued): Call {
      this.(issued := issued + [w])
    }
  }

  function HandleRequest(c: Call, id: nat, request: CallRequest): Call {
    match request
    case JoinChannel =>
      if c.voice.Prepare? then c.Act(StartTask(c.voice.rx)).(voice := VoiceStarted).Answer(id, true) else c.Answer(id, false)
    case WriteFrame(timestamp, taken) =>
      if c.voice.VoiceStarted? then c.Act(ForwardWrite(timestamp)).Answer(id, taken) else c.Answer(id, false)
    case HangUp =>
      (if c.voice.VoiceStarted? then c.Act(LeaveAndClose) else c).(voice := ShuttingDown(true)).Answer(id, true)
    case FixUp(channel) => c.(channel := channel)
  }

  function HandleCallEvent(c: Call, event: VoiceEvent): Call {
    match event
    case FullyConnected => c.Write(CallAnswer(c.channel))
    case Closed => c.(voice := ShuttingDown(false))
    case _ => c.(mixer := c.mixer + [event])
  }

  /** Without a voice task there are no events to wait for. */
  predicate Available(c: Call, e: WorkerEvent) {
    e.CallEvent? || e.NoMoreEvents? ==> c.voice.VoiceStarted?
  }

  /** One event, and whether the loop is left at once, hung up locally or not. */
  function Handle(c: Call, e: WorkerEvent): (Call, Option<bool>) {
    match e
    case ClientRequest(id, request) => (HandleRequest(c, id, request), None)
    case NoMoreRequests => (c, Some(true))
    case CallEvent(event) => (HandleCallEvent(c, event), None)
    case NoMoreEvents => (c, Some(false))
    case MixedPacket(frame, alive) => if alive then (c.Write(AskFrame(c.channel, frame)), None) else (c, Some(false))
  }

  datatype Run = Run(call: Call, ended: Option<bool>, handled: seq<WorkerEvent>)

  function Finish(c: Call, hungUpLocally: bool, handled: seq<WorkerEvent>): Run {
    Run(if hungUpLocally then c else c.Write(CallHangup(c.channel)), Some(hungUpLocally), handled)
  }

  /** One turn of the loop; an event that cannot come is not waited for, and after the end nothing is handled. */
  function Step(run: Run, e: WorkerEvent): Run {
    if run.ended.Some? || !Available(run.call, e) then run
    else
      var (c, left) := Handle(run.call, e);
      if left.Some? then Finish(c, left.value, run.handled + [e])
      else if c.voice.ShuttingDown? then Finish(c, c.voice.hungUpLocally, run.handled + [e])
      else Run(c, None, run.handled + [e])
  }

  function Start(rx: nat, channel: nat): Call {
    Call(Prepare(rx), channel, [], [], [], [])
  }

  function Execute(rx: nat, channel: nat, events: seq<WorkerEvent>): Run {
    if events == [] then Run(Start(rx, channel), None, [])
    else Step(Execute(rx, channel, events[..|events| - 1]), events[|events| - 1])
  }

  class CallWorker {
    var voice: Voice
    var channel: nat
    var actions: seq<TaskAction>
    var replies: seq<Reply>
    var issued: seq<Issued>
    var mixer: seq<VoiceEvent>

    constructor (rx: nat, channel: nat)
      ensures View() == Start(rx, channel)
    {
      voice, this.channel := Prepare(rx), channel;
      actions, replies, issued, mixer := [], [], [], [];
    }

    ghost function View(): Call
      reads this
    {
      Call(voice, channel, actions, replies, issued, mixer)
    }

    /** The state is taken out of its field while a join or a hang-up is carried out. */
    method ServeRequest(id: nat, request: CallRequest)
      modifies this
      ensures View() == HandleRequest(old(View()), id, request)
    {
      match request {
        case JoinChannel =>
          var taken := voice;
          voice := ShuttingDown(false);
          var ok := taken.Prepare?;
          if ok {
            actions := actions + [StartTask(taken.rx)];
            voice := VoiceStarted;
          } else {
            voice := taken;
          }
          replies := replies + [Reply(id, ok)];
        case WriteFrame(timestamp, taken) =>
          var ok := false;
          if voice.VoiceStarted? {
            actions := actions + [ForwardWrite(timestamp)];
            ok := taken;
          }
          replies := replies + [Reply(id, ok)];
        case HangUp =>
          var taken := voice;
          voice := ShuttingDown(true);
          if taken.VoiceStarted? {
            actions := actions + [LeaveAndClose];
          }
          replies := replies + [Reply(id, true)];
        case FixUp(newChannel) =>
          channel := newChannel;
      }
    }

    method FollowEvent(event: VoiceEvent)
      modifies this
      ensures View() == HandleCallEvent(old(View()), event)
    {
      match event {
        case FullyConnected => issued := issued + [CallAnswer(channel)];
        case Closed => voice := ShuttingDown(false);
        case _ => mixer := mixer + [event];
      }
    }

    /** The whole call, over whatever events arrive; stops early if they run out. */
    method RunCall(rx: nat, events: seq<WorkerEvent>) returns (ended: Option<bool>, ghost handled: seq<WorkerEvent>)
      requires View() == Start(rx, channel)
      modifies this
      ensures Run(View(), ended, handled) == Execute(rx, old(channel), events)
    {
      ghost var start := channel;
      ended, handled := None, [];
      for i := 0 to |events|
        invariant Run(View(), ended, handled) == Execute(rx, start, events[..i])
        invariant ended == None ==> !voice.ShuttingDown?
      {
        assert events[..i + 1][..i] == events[..i];
        var e := events[i];
        if ended == None && ((e.CallEvent? || e.NoMoreEvents?) ==> voice.VoiceStarted?) {
          handled := handled + [e];
          match e {
            case ClientRequest(id, request) => ServeRequest(id, request);
            case NoMoreRequests => ended := Some(true);
            case CallEvent(event) => FollowEvent(event);
            case NoMoreEvents => ended := Some(false);
            case MixedPacket(frame, alive) =>
              if alive {
                issued := issued + [AskFrame(channel, frame)];
              } else {
                ended := Some(false);
              }
          }
          if ended == None && voice.ShuttingDown? {
            ended := Some(voice.hungUpLocally);
          }
          if ended == Some(false) {
            issued := issued + [CallHangup(channel)];
          }
        }
      }
      assert events[..|events|] == events;
    }
  }

  // What is owed for the events handled

  /** A channel has been joined, so there is a voice task. */
  predicate HasJoined(handled: seq<WorkerEvent>) {
    exists i :: 0 <= i < |handled| && handled[i].ClientRequest? && handled[i].request.JoinChannel?
  }

  /** Every request is answered when it is handled, but for `FixUp`; the first join and the writes after it succeed. */
  function ReplyTo(joined: bool, e: WorkerEvent): seq<Reply> {
    match e
    case ClientRequest(id, JoinChannel) => [Reply(id, !joined)]
    case ClientRequest(id, WriteFrame(_, taken)) => [Reply(id, joined && taken)]
    case ClientRequest(id, HangUp) => [Reply(id, true)]
    case _ => []
  }

  function Owed(handled: seq<WorkerEvent>): seq<Reply> {
    if handled == [] then []
    else
      var n := |handled| - 1;
      Owed(handled[..n]) + ReplyTo(HasJoined(handled[..n]), handled[n])
  }

  /** The first join starts the voice task; what is written after it goes there, and so does the hang-up. */
  function ActionFor(rx: nat, joined: bool, e: WorkerEvent): seq<TaskAction> {
    match e
    case ClientRequest(_, JoinChannel) => if joined then [] else [StartTask(rx)]
    case ClientRequest(_, WriteFrame(timestamp, _)) => if joined then [ForwardWrite(timestamp)] else []
    case ClientRequest(_, HangUp) => if joined then [LeaveAndClose] else []
    case _ => []
  }

  function ActionsDue(rx: nat, handled: seq<WorkerEvent>): seq<TaskAction> {
    if handled == [] then []
    else
      var n := |handled| - 1;
      ActionsDue(rx, handled[..n]) + ActionFor(rx, HasJoined(handled[..n]), handled[n])
  }

  predicate ConcernsMixer(event: VoiceEvent) {
    event.PacketReceived? || event.UserJoined? || event.UserSpeaking? || event.UserLeft?
  }

  /** The packets, joins, speaking and leaving events. */
  function HeardByMixer(handled: seq<WorkerEvent>): seq<VoiceEvent> {
    if handled == [] then []
    else
      var rest, last := HeardByMixer(handled[..|handled| - 1]), handled[|handled| - 1];
      if last.CallEvent? && ConcernsMixer(last.event) then rest + [last.event] else rest
  }

  /** The channel the call was last moved to. */
  function ChannelAfter(channel: nat, handled: seq<WorkerEvent>): nat {
    if handled == [] then channel
    else
      var last := handled[|handled| - 1];
      if last.ClientRequest? && last.request.FixUp? then last.request.newChannel
      else ChannelAfter(channel, handled[..|handled| - 1])
  }

  /** What an event makes the worker issue for its channel. */
  function WriteFor(channel: nat, e: WorkerEvent): seq<Issued> {
    if e == CallEvent(VoiceTask.FullyConnected) then [CallAnswer(channel)]
    else if e.MixedPacket? && e.queueThreadAlive then [AskFrame(channel, e.frame)]
    else []
  }

  /** An answer for every announced connection, and every mixed frame, each to the channel the call has by then. */
  function Due(channel: nat, handled: seq<WorkerEvent>): seq<Issued> {
    if handled == [] then []
    else
      var n := |handled| - 1;
      Due(channel, handled[..n]) + WriteFor(ChannelAfter(channel, handled[..n]), handled[n])
  }

  lemma HandledSnoc(rx: nat, channel: nat, handled: seq<WorkerEvent>, e: WorkerEvent)
    ensures Owed(handled + [e]) == Owed(handled) + ReplyTo(HasJoined(handled), e)
    ensures ActionsDue(rx, handled + [e]) == ActionsDue(rx, handled) + ActionFor(rx, HasJoined(handled), e)
    ensures HeardByMixer(handled + [e]) ==
            HeardByMixer(handled) + if e.CallEvent? && ConcernsMixer(e.event) then [e.event] else []
    ensures ChannelAfter(channel, handled + [e]) ==
            if e.ClientRequest? && e.request.FixUp? then e.request.newChannel else ChannelAfter(channel, handled)
    ensures Due(channel, handled + [e]) == Due(channel, handled) + WriteFor(ChannelAfter(channel, handled), e)
  {
    assert (handled + [e])[..|handled|] == handled;
  }

  lemma JoinedSnoc(handled: seq<WorkerEvent>, e: WorkerEvent)
    ensures HasJoined(handled + [e]) <==> HasJoined(handled) || (e.ClientRequest? && e.request.JoinChannel?)
  {
    var more := handled + [e];
    assert more[|handled|] == e && forall i :: 0 <= i < |handled| ==> more[i] == handled[i];
  }

  // Every run

  /** Nothing, or the task is started once, given writes, and asked to leave only by a hang-up. */
  predicate Lifecycle(rx: nat, voice: Voice, actions: seq<TaskAction>) {
    if actions == [] then voice == Prepare(rx) || voice == ShuttingDown(true)
    else
      var asked := if voice == ShuttingDown(true) then |actions| - 1 else |actions|;
      && !voice.Prepare? && asked > 0 && actions[0] == StartTask(rx)
      && (forall i :: 0 < i < asked ==> actions[i].ForwardWrite?)
      && (voice == ShuttingDown(true) ==> actions[asked] == LeaveAndClose)
  }

  /** The call is over on this side: the driver hung up, or dropped its handle. */
  predicate EndsLocally(e: WorkerEvent) {
    e.NoMoreRequests? || (e.ClientRequest? && e.request.HangUp?)
  }

  /** The call is over on the other side. */
  predicate EndsRemotely(e: WorkerEvent) {
    e == CallEvent(VoiceTask.Closed) || e.NoMoreEvents? || (e.MixedPacket? && !e.queueThreadAlive)
  }

  /** The end, if it has come, came with the last event handled. */
  predicate EndedBy(ended: Option<bool>, handled: seq<WorkerEvent>) {
    && (forall i :: 0 <= i < |handled| - 1 ==> !EndsLocally(handled[i]) && !EndsRemotely(handled[i]))
    && (ended == Some(true) <==> handled != [] && EndsLocally(handled[|handled| - 1]))
    && (ended == Some(false) <==> handled != [] && EndsRemotely(handled[|handled| - 1]))
  }

  /** While the call goes on, it has a voice task exactly if it has joined. */
  predicate VoiceFits(rx: nat, voice: Voice, handled: seq<WorkerEvent>) {
    voice.ShuttingDown? || voice == if HasJoined(handled) then VoiceStarted else Prepare(rx)
  }

  /** What every peer has had is what it is owed; only the hang-up at the end is not in it. */
  ghost predicate CallInvariant(rx: nat, channel: nat, c: Call, handled: seq<WorkerEvent>) {
    && c.replies == Owed(handled)
    && c.actions == ActionsDue(rx, handled)
    && c.mixer == HeardByMixer(handled)
    && c.channel == ChannelAfter(channel, handled)
    && c.issued == Due(channel, handled)
    && VoiceFits(rx, c.voice, handled) && Lifecycle(rx, c.voice, c.actions)
  }

  ghost predicate RunInvariant(rx: nat, channel: nat, run: Run) {
    && EndedBy(run.ended, run.handled)
    && (run.ended == None ==> !run.call.voice.ShuttingDown?)
    && if run.ended != Some(false) then CallInvariant(rx, channel, run.call, run.handled)
       else
         var due := Due(channel, run.handled);
         && run.call.issued == due + [CallHangup(ChannelAfter(channel, run.handled))]
         && CallInvariant(rx, channel, run.call.(issued := due), run.handled)
  }

  lemma LifecycleGoesOn(rx: nat, c: Call, e: WorkerEvent)
    requires Available(c, e) && !c.voice.ShuttingDown? && Lifecycle(rx, c.voice, c.actions)
    ensures var c' := Handle(c, e).0; Lifecycle(rx, c'.voice, c'.actions)
  {
  }

  /** What one event adds to what each peer has had. */
  lemma EverybodyServed(rx: nat, c: Call, handled: seq<WorkerEvent>, e: WorkerEvent)
    requires Available(c, e) && !c.voice.ShuttingDown? && VoiceFits(rx, c.voice, handled)
    ensures var c', joined := Handle(c, e).0, HasJoined(handled);
            && c'.replies == c.replies + ReplyTo(joined, e)
            && c'.actions == c.actions + ActionFor(rx, joined, e)
            && c'.mixer == c.mixer + (if e.CallEvent? && ConcernsMixer(e.event) then [e.event] else [])
            && c'.issued == c.issued + WriteFor(c.channel, e)
            && c'.channel == if e.ClientRequest? && e.request.FixUp? then e.request.newChannel else c.channel
  {
  }

  lemma VoiceStillFits(rx: nat, c: Call, handled: seq<WorkerEvent>, e: WorkerEvent)
    requires Available(c, e) && !c.voice.ShuttingDown? && VoiceFits(rx, c.voice, handled)
    ensures VoiceFits(rx, Handle(c, e).0.voice, handled + [e])
  {
    JoinedSnoc(handled, e);
  }

  lemma HandleKeepsInvariant(rx: nat, channel: nat, c: Call, handled: seq<WorkerEvent>, e: WorkerEvent)
    requires Available(c, e) && !c.voice.ShuttingDown? && CallInvariant(rx, channel, c, handled)
    ensures CallInvariant(rx, channel, Handle(c, e).0, handled + [e])
  {
    HandledSnoc(rx, channel, handled, e);
    EverybodyServed(rx, c, handled, e);
    VoiceStillFits(rx, c, handled, e);
    LifecycleGoesOn(rx, c, e);
  }

  function EndOf(e: WorkerEvent): Option<bool> {
    if EndsLocally(e) then Some(true) else if EndsRemotely(e) then Some(false) else None
  }

  lemma EndedByStep(handled: seq<WorkerEvent>, e: WorkerEvent)
    requires EndedBy(None, handled)
    ensures EndedBy(EndOf(e), handled + [e])
  {
  }

  /** A call that goes on goes on but for an event that ends it, and hangs up if the other side did. */
  lemma StepEnds(run: Run, e: WorkerEvent)
    requires run.ended == None && Available(run.call, e) && !run.call.voice.ShuttingDown?
    ensures var c := Handle(run.call, e).0;
            && Step(run, e) ==
               Run(if EndOf(e) == Some(false) then c.Write(CallHangup(c.channel)) else c, EndOf(e), run.handled + [e])
            && (EndOf(e) == None ==> !c.voice.ShuttingDown?)
  {
  }

  lemma StepKeepsInvariant(rx: nat, channel: nat, run: Run, e: WorkerEvent)
    requires RunInvariant(rx, channel, run)
    ensures RunInvariant(rx, channel, Step(run, e))
  {
    if run.ended == None && Available(run.call, e) {
      HandleKeepsInvariant(rx, channel, run.call, run.handled, e);
      EndedByStep(run.handled, e);
      StepEnds(run, e);
      var c := Handle(run.call, e).0;
      assert c.Write(CallHangup(c.channel)).(issued := c.issued) == c;
    }
  }

  lemma {:induction false} EveryRun(rx: nat, channel: nat, events: seq<WorkerEvent>)
    ensures RunInvariant(rx, channel, Execute(rx, channel, events))
  {
    if events != [] {
      EveryRun(rx, channel, events[..|events| - 1]);
      StepKeepsInvariant(rx, channel, Execute(rx, channel, events[..|events| - 1]), events[|events| - 1]);
    }
  }

  predicate IsOver(handled: seq<WorkerEvent>) {
    handled != [] && (EndsLocally(handled[|handled| - 1]) || EndsRemotely(handled[|handled| - 1]))
  }

  lemma OverOnceEnded(ended: Option<bool>, handled: seq<WorkerEvent>)
    requires EndedBy(ended, handled)
    ensures IsOver(handled) <==> ended.Some?
  {
    if ended.Some? {
      var locally := ended.value;
      if locally {
        assert ended == Some(true);
      } else {
        assert ended == Some(false);
      }
    }
  }

  /** Of these events the worker handles all up to the one that ends the call, but none of a voice task it has not got. */
  function HandledOf(events: seq<WorkerEvent>): seq<WorkerEvent> {
    if events == [] then []
    else
      var before, e := HandledOf(events[..|events| - 1]), events[|events| - 1];
      if IsOver(before) || ((e.CallEvent? || e.NoMoreEvents?) && !HasJoined(before)) then before else before + [e]
  }

  lemma {:induction false} HandledExactly(rx: nat, channel: nat, events: seq<WorkerEvent>)
    ensures Execute(rx, channel, events).handled == HandledOf(events)
  {
    if events != [] {
      var init := events[..|events| - 1];
      HandledExactly(rx, channel, init);
      EveryRun(rx, channel, init);
      var run := Execute(rx, channel, init);
      OverOnceEnded(run.ended, run.handled);
      assert run.ended == None ==> VoiceFits(rx, run.call.voice, run.handled);
    }
  }

  /**
    Each request handled is answered once and in order, except `FixUp`, which never is: the first join succeeds and no
    other, a write does as the task says if there is one, a hang-up always.
   */
  lemma {:induction false} AnsweredExactlyOnce(rx: nat, channel: nat, events: seq<WorkerEvent>)
    ensures var run := Execute(rx, channel, events); run.call.replies == Owed(run.handled)
  {
    EveryRun(rx, channel, events);
  }

  /** The mixer is given exactly the packets, joins, speaking and leaving events handled, each once and in order. */
  lemma {:induction false} MixerHearsEverything(rx: nat, channel: nat, events: seq<WorkerEvent>)
    ensures var run := Execute(rx, channel, events); run.call.mixer == HeardByMixer(run.handled)
  {
    EveryRun(rx, channel, events);
  }

  /**
    What is issued: an answering call for every announced connection and a request for every mixed frame, each for the
    channel of the latest `FixUp`; then, unless the call ended locally, one call to hang up and nothing after it.
   */
  lemma {:induction false} IssuedExactly(rx: nat, channel: nat, events: seq<WorkerEvent>)
    ensures var run := Execute(rx, channel, events);
            && run.call.issued == Due(channel, run.handled)
                 + (if run.ended == Some(false) then [CallHangup(ChannelAfter(channel, run.handled))] else [])
            && EndedBy(run.ended, run.handled)
  {
    EveryRun(rx, channel, events);
  }

  /**
    The voice task is started by the first join, with the receiver the call was prepared with, then given every frame
    written, in order, and asked to leave by a hang-up only, which is the last it is asked.
   */
  lemma {:induction false} TaskLifecycle(rx: nat, channel: nat, events: seq<WorkerEvent>)
    ensures var run := Execute(rx, channel, events);
            run.call.actions == ActionsDue(rx, run.handled) && Lifecycle(rx, run.call.voice, run.call.actions)
  {
    EveryRun(rx, channel, events);
  }
}
