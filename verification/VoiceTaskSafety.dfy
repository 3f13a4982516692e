/** What holds of every run of the voice task, whatever events arrive and in whatever order. */
module VoiceTaskSafety {
  import opened Prelude
  import opened EncryptionModes
  import opened ConnectInfo
  import opened VoiceTask

  import Crypto
  import DataChannel
  import VoiceGateway

  /** The gateway commands of a trace. */
  function Actions(trace: seq<Effect>): seq<GatewayAction> {
    if trace == [] then []
    else
      var rest, e := Actions(trace[..|trace| - 1]), trace[|trace| - 1];
      if e.Gateway? then rest + [e.action] else rest
  }

  lemma {:induction false} ActionsAppend(a: seq<Effect>, b: seq<Effect>)
    ensures Actions(a + b) == Actions(a) + Actions(b)
    decreases |b|
  {
    if b == [] {
      assert a + b == a;
    } else {
      var n := |b| - 1;
      ActionsAppend(a, b[..n]);
      assert (a + b)[..|a + b| - 1] == a + b[..n];
    }
  }

  lemma ActionsShort(e: Effect, f: Effect)
    ensures Actions([e]) == if e.Gateway? then [e.action] else []
    ensures Actions([e, f]) == Actions([e]) + Actions([f])
  {
    assert Actions([e]) == Actions([]) + Actions([e]);
    assert [e, f] == [e] + [f];
    ActionsAppend([e], [f]);
  }

  /** A prefix of Identify, SelectProtocol, Speaking, each at most once. */
  predicate IsHandshake(actions: seq<GatewayAction>) {
    && |actions| <= 3
    && (|actions| > 0 ==> actions[0].SendIdentify?)
    && (|actions| > 1 ==> actions[1].SendSelectProtocol?)
    && (|actions| > 2 ==> actions[2].SendSpeaking?)
  }

  /** The first effect is the accepted join; no other join, no leave and no `Closed` follow. */
  predicate Joined(trace: seq<Effect>) {
    && trace != [] && trace[0] == JoinIntent(true)
    && forall i :: 0 < i < |trace| ==>
         !trace[i].JoinIntent? && trace[i] != LeaveIntent && trace[i] != Emit(Closed)
  }

  ghost predicate StateInvariant(r: Runner) {
    && Joined(r.trace)
    && (r.state.WaitingForReady? ==> r.state.gateway.Some?)
    && (r.state.Connected? && r.state.hasSession ==> r.state.KeyInstalled())
    && (Emit(FullyConnected) in r.trace <==> r.state.Rank() == 3)
    && ((exists t :: EncryptVoice(t) in r.trace) ==> r.state.Rank() == 3)
  }

  /** What is true at every head of the task's loop. */
  ghost predicate LoopInvariant(r: Runner) {
    && StateInvariant(r)
    && !r.closeRequested
    && IsHandshake(Actions(r.trace))
    && |Actions(r.trace)| == r.state.Rank()
  }

  /** What is true when the loop has been left: at most the Speaking command is ahead of the state. */
  ghost predicate ExitInvariant(r: Runner) {
    && StateInvariant(r)
    && IsHandshake(Actions(r.trace))
    && r.state.Rank() <= |Actions(r.trace)|
    && (r.state.Rank() == 0 ==> Actions(r.trace) == [])
  }

  /** The input that makes `set_key` panic: a session description, once connected, whose key is not 32 bytes. */
  predicate MalformedKey(r: Runner, input: Input) {
    && input.SessionDescription? && r.state.Connected?
    && FromName(input.modeName).Some? && |input.secretKey| != KEY_SIZE
  }

  predicate UserIdZero(input: Input) {
    match input
    case Speaking(user, _) => user == Some(0)
    case ClientConnect(user, _) => user == 0
    case ClientDisconnect(user) => user == 0
    case _ => false
  }

  /** A datagram, received with a Normal-mode key, whose header does not fit the nonce. */
  predicate LongHeaderReceived(r: Runner, input: Input) {
    && input.Datagram? && r.state.Connected? && r.state.voice.crypto == Some(Normal)
    && DataChannel.LongHeader(DataChannel.Truncated(input.bytes), input.kind)
  }

  /** A heartbeat interval, read from an open gateway, that is no `Duration`. */
  predicate IntervalOutOfRange(r: Runner, input: Input) {
    input.GatewayHello? && r.state.HasGateway() && !VoiceGateway.IntervalFits(input.interval)
  }

  /** The inputs that make a task panic. */
  predicate PanicsOn(r: Runner, input: Input) {
    MalformedKey(r, input) || UserIdZero(input) || LongHeaderReceived(r, input) || IntervalOutOfRange(r, input)
  }

  predicate Harmless(e: Effect) {
    !e.JoinIntent? && e != LeaveIntent && e != Emit(Closed)
  }

  /** Appending an effect that is neither a join, a leave nor `Closed`. */
  lemma Append(trace: seq<Effect>, e: Effect)
    requires Joined(trace) && Harmless(e)
    ensures Joined(trace + [e])
    ensures Actions(trace + [e]) == Actions(trace) + (if e.Gateway? then [e.action] else [])
    ensures forall f :: f in trace + [e] <==> f in trace || f == e
  {
    ActionsAppend(trace, [e]);
    ActionsShort(e, e);
  }

  lemma ReadyKeepsInvariant(r: Runner, modes: seq<string>, connected: bool)
    requires LoopInvariant(r)
    ensures var (r', result) := HandleReady(r, modes, connected);
            LoopInvariant(r') && result != Panic && r.trace <= r'.trace && r.state.Rank() <= r'.state.Rank()
  {
    if r.state.WaitingForReady? && Best(modes).Some? && connected {
      Append(r.trace, Gateway(SendSelectProtocol(Best(modes).value)));
    }
  }

  /** Between the Speaking command and the session flag, the command is ahead of the state. */
  lemma SpeakingKeepsInvariant(r: Runner, voice: Voice)
    requires LoopInvariant(r) && r.state.Connected? && !r.state.hasSession
    ensures var spoken := Runner(r.state.(voice := voice), r.closeRequested, r.trace + [Gateway(SendSpeaking)]);
            ExitInvariant(spoken) && |Actions(spoken.trace)| == 3
  {
    Append(r.trace, Gateway(SendSpeaking));
  }

  lemma AnnouncingKeepsInvariant(spoken: Runner)
    requires ExitInvariant(spoken) && !spoken.closeRequested && |Actions(spoken.trace)| == 3
    requires spoken.state.Connected? && spoken.state.voice.crypto.Some?
    ensures LoopInvariant(Runner(spoken.state.(hasSession := true), false, spoken.trace + [Emit(FullyConnected)]))
  {
    Append(spoken.trace, Emit(FullyConnected));
  }

  lemma InstallKeyKeepsInvariant(r: Runner, mode: EncryptionMode, sent: bool)
    requires LoopInvariant(r) && r.state.Connected?
    ensures var (r', result) := InstallKey(r, mode, sent);
            && ExitInvariant(r') && r.trace <= r'.trace && r.state.Rank() <= r'.state.Rank()
            && (result == Ok ==> LoopInvariant(r')) && result != Panic
  {
    var voice := Voice(Some(mode));
    if r.state.hasSession {
      AnnouncingKeepsInvariant(r.SetState(r.state.(voice := voice)));
    } else {
      SpeakingKeepsInvariant(r, voice);
      if sent {
        AnnouncingKeepsInvariant(Runner(r.state.(voice := voice), r.closeRequested, r.trace + [Gateway(SendSpeaking)]));
      }
    }
  }

  lemma SessionKeepsInvariant(r: Runner, name: string, key: seq<Byte>, sent: bool)
    requires LoopInvariant(r)
    ensures var (r', result) := HandleSession(r, name, key, sent);
            && ExitInvariant(r') && r.trace <= r'.trace && r.state.Rank() <= r'.state.Rank()
            && (result == Ok ==> LoopInvariant(r'))
            && (result == Panic <==> MalformedKey(r, SessionDescription(name, key, sent)))
  {
    if r.state.Connected? && FromName(name).Some? {
      InstallKeyKeepsInvariant(r, FromName(name).value, sent);
    }
  }

  lemma GlobalKeepsInvariant(r: Runner, event: GlobalEvent)
    requires LoopInvariant(r)
    ensures var r' := HandleGlobal(r, event);
            LoopInvariant(r') && r.trace <= r'.trace && r.state.Rank() <= r'.state.Rank()
  {
    if r.state.WaitingForEvents? && r.state.info.Apply(event).IsComplete() {
      Append(r.trace, Gateway(SendIdentify(r.state.info.Apply(event).Identify())));
    }
  }

  lemma WriteKeepsInvariant(r: Runner, timestamp: U32, sent: bool)
    requires LoopInvariant(r)
    ensures var r' := HandleWrite(r, timestamp, sent);
            && LoopInvariant(r') && r.trace <= r'.trace && r'.state == r.state
            && Actions(r'.trace) == Actions(r.trace)
  {
    if r.state.Rank() == 3 {
      Append(r.trace, EncryptVoice(timestamp));
      Append(r.trace + [EncryptVoice(timestamp)], Respond(sent));
      assert r.trace + [EncryptVoice(timestamp)] + [Respond(sent)]
          == r.trace + [EncryptVoice(timestamp), Respond(sent)];
    } else {
      Append(r.trace, Respond(false));
    }
  }

  predicate IsPlain(input: Input) {
    !input.Write? && !input.Global? && !input.Ready? && !input.SessionDescription?
  }

  /** The remaining events tell the worker or a requester something, and may ask for the end. */
  lemma PlainKeepsInvariant(me: nat, r: Runner, input: Input)
    requires LoopInvariant(r) && IsPlain(input)
    ensures var (r', result) := Handle(me, r, input);
            && ExitInvariant(r') && r.trace <= r'.trace && r'.state == r.state
            && Actions(r'.trace) == Actions(r.trace)
            && (result != Panic && !r'.closeRequested ==> LoopInvariant(r'))
  {
    var (r', result) := Handle(me, r, input);
    if r'.trace != r.trace {
      Append(r.trace, r'.trace[|r.trace|]);
      assert r'.trace == r.trace + [r'.trace[|r.trace|]];
    }
  }

  lemma PlainPanics(me: nat, r: Runner, input: Input)
    requires IsPlain(input)
    ensures Handle(me, r, input).1 == (if PanicsOn(r, input) then Panic else Ok)
  {
  }

  /** Handling any event keeps the invariants, never lowers the rank, and panics on exactly four kinds of input. */
  lemma HandleKeepsInvariant(me: nat, r: Runner, input: Input)
    requires LoopInvariant(r)
    ensures var (r', result) := Handle(me, r, input);
            && r.state.Rank() <= r'.state.Rank()
            && r.trace <= r'.trace
            && ExitInvariant(r')
            && (result == Ok && !r'.closeRequested ==> LoopInvariant(r'))
            && (result == Panic <==> PanicsOn(r, input))
  {
    match input
    case Write(timestamp, sent) => WriteKeepsInvariant(r, timestamp, sent);
    case Global(event) => GlobalKeepsInvariant(r, event);
    case Ready(modes, connected) => ReadyKeepsInvariant(r, modes, connected);
    case SessionDescription(name, key, sent) => SessionKeepsInvariant(r, name, key, sent);
    case _ =>
      PlainKeepsInvariant(me, r, input);
      PlainPanics(me, r, input);
  }

  /** The task's handling of a datagram is what its data channel says of it, whatever the cipher. */
  lemma DatagramAsReceived(cipher: Crypto.Cipher, r: Runner, packet: nat, bytes: seq<Byte>, kind: DataChannel.Demuxed)
    requires r.state.KeyInstalled() && DataChannel.PlausibleFor(kind, DataChannel.Truncated(bytes))
    ensures var received := DataChannel.ReceivedFrom(cipher, r.state.voice.crypto.value, DataChannel.Truncated(bytes), kind);
            HandleDatagram(r, packet, bytes, kind, received.Rtp? || received.Rtcp?) ==
            if received.ReceivePanics? then (r, Panic)
            else if received.ReceiveError? then (r, Ok)
            else (r.Do([Emit(PacketReceived(packet))]), Ok)
  {
    DataChannel.ReceivingPanicsExactlyOnLongHeader(cipher, r.state.voice.crypto.value, DataChannel.Truncated(bytes), kind);
  }

  /** How a run that has left its loop ends: the gateway is closed if it was ever opened, then the leave intent. */
  ghost predicate ClosedDown(r: Runner, before: Runner) {
    && ExitInvariant(before)
    && r.trace == before.trace
         + (if Actions(before.trace) == [] then [LeaveIntent] else [Gateway(CloseGateway), LeaveIntent])
    && r.state == before.state
  }

  ghost predicate RunInvariant(run: Run) {
    match run.status
    case Running => LoopInvariant(run.runner)
    case Finished => exists before :: ClosedDown(run.runner, before)
    case Panicked => ExitInvariant(run.runner)
  }

  lemma StepKeepsInvariant(me: nat, run: Run, input: Input)
    requires run.status == Running && LoopInvariant(run.runner)
    ensures RunInvariant(Step(me, run, input))
    ensures run.runner.trace <= Step(me, run, input).runner.trace
    ensures run.runner.state.Rank() <= Step(me, run, input).runner.state.Rank()
  {
    HandleKeepsInvariant(me, run.runner, input);
    var (r, result) := Handle(me, run.runner, input);
    if Step(me, run, input).status == Finished {
      assert ClosedDown(Step(me, run, input).runner, r);
    }
  }

  lemma {:induction false} EveryRun(me: nat, inputs: seq<Input>)
    ensures RunInvariant(Execute(me, true, inputs))
  {
    if inputs == [] {
      ActionsShort(JoinIntent(true), JoinIntent(true));
    } else {
      var n := |inputs| - 1;
      EveryRun(me, inputs[..n]);
      if Execute(me, true, inputs[..n]).status == Running {
        StepKeepsInvariant(me, Execute(me, true, inputs[..n]), inputs[n]);
      }
    }
  }

  /** A refused join is announced by `Closed` and nothing else ever happens. */
  lemma {:induction false} RefusedJoin(me: nat, inputs: seq<Input>)
    ensures Execute(me, false, inputs) == Begin(false)
    ensures Begin(false).runner.trace == [JoinIntent(false), Emit(Closed)]
  {
    if inputs != [] {
      RefusedJoin(me, inputs[..|inputs| - 1]);
    }
  }

  /** A finished run: join first, the handshake in order, then Close if there was a gateway, then the leave intent. */
  ghost predicate WholeTrace(trace: seq<Effect>, body: seq<Effect>) {
    && Joined(body) && IsHandshake(Actions(body))
    && trace == body + (if Actions(body) == [] then [LeaveIntent] else [Gateway(CloseGateway), LeaveIntent])
  }

  /**
    The shape of an accepted run's trace: one join at the front; the handshake commands in order,
    each at most once; if the run is over, one Close after them when there was a gateway, and exactly
    one leave intent, last of all. Only a panic ends a run without the leave intent.
   */
  lemma {:induction false} TraceShape(me: nat, inputs: seq<Input>)
    ensures var run := Execute(me, true, inputs);
            if run.status == Finished then exists body :: WholeTrace(run.runner.trace, body)
            else Joined(run.runner.trace) && IsHandshake(Actions(run.runner.trace))
  {
    EveryRun(me, inputs);
    var run := Execute(me, true, inputs);
    if run.status == Finished {
      var before :| ClosedDown(run.runner, before);
      assert WholeTrace(run.runner.trace, before.trace);
    }
  }

  /** The `i`-th event is handled, and it is one that makes the task panic. */
  predicate PanicsAt(me: nat, inputs: seq<Input>, i: nat) {
    && i < |inputs|
    && Execute(me, true, inputs[..i]).status == Running
    && PanicsOn(Execute(me, true, inputs[..i]).runner, inputs[i])
  }

  lemma StepPanics(me: nat, run: Run, input: Input)
    requires run.status == Running && LoopInvariant(run.runner)
    ensures Step(me, run, input).status == Panicked <==> PanicsOn(run.runner, input)
  {
    HandleKeepsInvariant(me, run.runner, input);
  }

  lemma {:induction false} LastPanics(me: nat, inputs: seq<Input>)
    requires inputs != []
    ensures var n := |inputs| - 1;
            Execute(me, true, inputs).status == Panicked <==>
            Execute(me, true, inputs[..n]).status == Panicked || PanicsAt(me, inputs, n)
  {
    var n := |inputs| - 1;
    var run := Execute(me, true, inputs[..n]);
    EveryRun(me, inputs[..n]);
    if run.status == Running {
      StepPanics(me, run, inputs[n]);
    }
  }

  /**
    A run panics exactly when it handles a malformed session key, user id 0, a long header under a Normal-mode key, or
    a heartbeat interval out of range; no unwrap of the task ever fails.
   */
  lemma {:induction false} PanicsExactly(me: nat, inputs: seq<Input>)
    ensures Execute(me, true, inputs).status == Panicked <==> exists i: nat :: PanicsAt(me, inputs, i)
  {
    if inputs != [] {
      var n := |inputs| - 1;
      var rest := inputs[..n];
      PanicsExactly(me, rest);
      forall i: nat | i < n
        ensures PanicsAt(me, inputs, i) <==> PanicsAt(me, rest, i)
      {
        assert rest[..i] == inputs[..i];
      }
      LastPanics(me, inputs);
    }
  }

  /** The bot, user 1, has joined, opened its gateway and connected. */
  function Connecting(): seq<Input> {
    [Global(VoiceState(StateUpdate(1, Some(2), Some(3), "session"))),
     Global(VoiceServer(ServerUpdate(Some("host"), "token"))), Ready(["xsalsa20_poly1305"], true)]
  }

  lemma ConnectingConnects()
    ensures var run := Execute(1, true, Connecting());
            run.status == Running && run.runner.state == Connected(GatewayConnection("host"), Voice(None), false)
  {
    var inputs := Connecting();
    ExecuteNext(1, true, inputs, 0);
    ExecuteNext(1, true, inputs, 1);
    ExecuteNext(1, true, inputs, 2);
    assert inputs[..0] == [] && inputs[..3] == inputs;
    var offered := ["xsalsa20_poly1305"];
    assert offered[..0] == [] && Best(offered) == Some(Normal);
  }

  lemma NextPanics(me: nat, inputs: seq<Input>, input: Input)
    requires Execute(me, true, inputs).status == Running && PanicsOn(Execute(me, true, inputs).runner, input)
    ensures Execute(me, true, inputs + [input]).status == Panicked
  {
    assert (inputs + [input])[..|inputs|] == inputs;
    assert PanicsAt(me, inputs + [input], |inputs|);
    PanicsExactly(me, inputs + [input]);
  }

  /** It does happen: the bot is connected, and the session description comes with an empty key. */
  lemma MalformedKeyHappens()
    ensures Execute(1, true, Connecting() + [SessionDescription("xsalsa20_poly1305", [], true)]).status == Panicked
  {
    ConnectingConnects();
    NextPanics(1, Connecting(), SessionDescription("xsalsa20_poly1305", [], true));
  }

  /** Any of the three events about a user panics on id 0. */
  lemma UserIdZeroHappens()
    ensures Execute(1, true, Connecting() + [Speaking(Some(0), 5)]).status == Panicked
    ensures Execute(1, true, Connecting() + [ClientConnect(0, 5)]).status == Panicked
    ensures Execute(1, true, Connecting() + [ClientDisconnect(0)]).status == Panicked
  {
    ConnectingConnects();
    NextPanics(1, Connecting(), Speaking(Some(0), 5));
    NextPanics(1, Connecting(), ClientConnect(0, 5));
    NextPanics(1, Connecting(), ClientDisconnect(0));
  }

  /** A gateway that announces a negative interval. */
  lemma IntervalOutOfRangeHappens()
    ensures Execute(1, true, Connecting() + [GatewayHello(-1.0)]).status == Panicked
  {
    ConnectingConnects();
    NextPanics(1, Connecting(), GatewayHello(-1.0));
  }

  /** The session is up in Normal mode, and a packet counts fifteen contributing sources. */
  lemma LongHeaderHappens()
    ensures var keyed := Connecting() + [SessionDescription("xsalsa20_poly1305", Zeros(KEY_SIZE), true)];
            Execute(1, true, keyed + [Datagram(0, [0x8F] + Zeros(71), DataChannel.AsRtp, true)]).status == Panicked
  {
    var described := SessionDescription("xsalsa20_poly1305", Zeros(KEY_SIZE), true);
    var keyed := Connecting() + [described];
    ConnectingConnects();
    assert keyed[..3] == Connecting();
    assert FromName("xsalsa20_poly1305") == Some(Normal);
    assert Execute(1, true, keyed) == Step(1, Execute(1, true, Connecting()), described);
    NextPanics(1, keyed, Datagram(0, [0x8F] + Zeros(71), DataChannel.AsRtp, true));
  }

  /** The second run is the first one further along: its rank is no lower and its trace no shorter. */
  predicate Continues(run: Run, later: Run) {
    run.runner.state.Rank() <= later.runner.state.Rank() && run.runner.trace <= later.runner.trace
  }

  lemma StepContinues(me: nat, run: Run, input: Input)
    requires RunInvariant(run)
    ensures Continues(run, Step(me, run, input))
  {
    if run.status == Running {
      StepKeepsInvariant(me, run, input);
    }
  }

  /** The state's rank never falls and the trace only grows, over any continuation of a run. */
  lemma {:induction false} RankNeverFalls(me: nat, inputs: seq<Input>, i: nat)
    requires i <= |inputs|
    ensures Continues(Execute(me, true, inputs[..i]), Execute(me, true, inputs))
  {
    if i == |inputs| {
      assert inputs[..i] == inputs;
    } else {
      var n := |inputs| - 1;
      RankNeverFalls(me, inputs[..n], i);
      assert inputs[..n][..i] == inputs[..i];
      EveryRun(me, inputs[..n]);
      StepContinues(me, Execute(me, true, inputs[..n]), inputs[n]);
    }
  }

  /** Whenever the worker has been told the call is fully connected, a key is installed. */
  lemma {:induction false} KeyBeforeAnnouncement(me: nat, inputs: seq<Input>)
    ensures var r := Execute(me, true, inputs).runner;
            Emit(FullyConnected) in r.trace ==> r.state.KeyInstalled() && r.state.hasSession
  {
    EveryRun(me, inputs);
    var run := Execute(me, true, inputs);
    if run.status == Finished {
      var before :| ClosedDown(run.runner, before);
    }
  }

  /** A write handled by a live task is encrypted if and only if the call has been announced as connected. */
  lemma {:induction false} WriteReachesEncryption(me: nat, inputs: seq<Input>, timestamp: U32, sent: bool)
    requires Execute(me, true, inputs).status == Running
    ensures var r := Execute(me, true, inputs).runner;
            Execute(me, true, inputs + [Write(timestamp, sent)]) ==
            Run(r.Do(if Emit(FullyConnected) in r.trace
                     then [EncryptVoice(timestamp), Respond(sent)] else [Respond(false)]), Running)
  {
    EveryRun(me, inputs);
    assert (inputs + [Write(timestamp, sent)])[..|inputs|] == inputs;
  }

  // Connecting: which updates the voice gateway is opened with

  /** The global events a run has handled. */
  function Heard(me: nat, inputs: seq<Input>): seq<GlobalEvent> {
    if inputs == [] then []
    else
      var n := |inputs| - 1;
      var rest := Heard(me, inputs[..n]);
      if Execute(me, true, inputs[..n]).status == Running && inputs[n].Global? then rest + [inputs[n].global] else rest
  }

  /** The identities a trace has announced itself with. */
  function Identities(actions: seq<GatewayAction>): seq<Identity> {
    if actions == [] then []
    else
      var rest, a := Identities(actions[..|actions| - 1]), actions[|actions| - 1];
      if a.SendIdentify? then rest + [a.identity] else rest
  }

  lemma {:induction false} IdentitiesOfHandshake(actions: seq<GatewayAction>)
    requires IsHandshake(actions)
    ensures Identities(actions) == if actions == [] then [] else [actions[0].identity]
    ensures actions != [] ==> Identities(actions + [CloseGateway]) == Identities(actions)
  {
    assert (actions + [CloseGateway])[..|actions|] == actions;
    if |actions| > 1 {
      IdentitiesOfHandshake(actions[..|actions| - 1]);
    }
  }

  lemma ActionsOfWhole(trace: seq<Effect>, body: seq<Effect>)
    requires WholeTrace(trace, body)
    ensures Actions(trace) == if Actions(body) == [] then [] else Actions(body) + [CloseGateway]
  {
    ActionsAppend(body, trace[|body|..]);
    ActionsShort(LeaveIntent, LeaveIntent);
    ActionsShort(Gateway(CloseGateway), LeaveIntent);
    assert trace == body + trace[|body|..];
  }

  ghost predicate ConnectInvariant(r: Runner, heard: seq<GlobalEvent>) {
    if r.state.WaitingForEvents? then
      r.state.info == ApplyAll(heard) && NeverComplete(heard) && Actions(r.trace) == []
    else
      && Actions(r.trace) != [] && Actions(r.trace)[0].SendIdentify?
      && exists k: nat :: FirstComplete(heard, k) && Actions(r.trace)[0].identity == IdentityAfter(heard[..k])
  }

  lemma ConnectStep(me: nat, r: Runner, heard: seq<GlobalEvent>, event: GlobalEvent)
    requires LoopInvariant(r) && ConnectInvariant(r, heard)
    ensures ConnectInvariant(HandleGlobal(r, event), heard + [event])
  {
    FirstCompleteStep(heard, event);
    var more := heard + [event];
    assert more[..|heard|] == heard && more[..|more|] == more;
    if r.state.WaitingForEvents? {
      ApplyRemembersLast(more);
      if CompleteAfter(more) {
        var identify := Gateway(SendIdentify(IdentityAfter(more)));
        ActionsAppend(r.trace, [identify]);
        ActionsShort(identify, identify);
        assert FirstComplete(more, |more|);
      }
    } else {
      var k: nat :| FirstComplete(heard, k) && Actions(r.trace)[0].identity == IdentityAfter(heard[..k]);
      assert FirstComplete(more, k);
    }
  }

  lemma ActionsPrefix(a: seq<Effect>, b: seq<Effect>)
    requires a <= b
    ensures Actions(a) <= Actions(b)
  {
    ActionsAppend(a, b[|a|..]);
    assert a + b[|a|..] == b;
  }

  lemma LeavingQuietly(r: Runner)
    requires r.state.WaitingForEvents? && Actions(r.trace) == []
    ensures r.CloseDown().state == r.state && Actions(r.CloseDown().trace) == []
  {
    ActionsAppend(r.trace, [LeaveIntent]);
    ActionsShort(LeaveIntent, LeaveIntent);
    assert r.CloseDown().trace == r.trace + [LeaveIntent];
  }

  lemma WaitingHandlesQuietly(me: nat, r: Runner, input: Input)
    requires LoopInvariant(r) && !input.Global? && r.state.WaitingForEvents?
    ensures Handle(me, r, input).0.state == r.state && Actions(Handle(me, r, input).0.trace) == []
  {
    if IsPlain(input) {
      PlainKeepsInvariant(me, r, input);
    } else if input.Write? {
      WriteKeepsInvariant(r, input.timestamp, input.sent);
    }
  }

  /** Only a global event takes the task out of waiting; leaving from there sends no gateway command. */
  lemma WaitingIsKept(me: nat, run: Run, input: Input)
    requires run.status == Running && LoopInvariant(run.runner) && !input.Global?
    ensures Step(me, run, input).runner.state.WaitingForEvents? <==> run.runner.state.WaitingForEvents?
    ensures run.runner.state.WaitingForEvents? ==>
              && Step(me, run, input).runner.state == run.runner.state
              && Actions(Step(me, run, input).runner.trace) == []
  {
    if run.runner.state.WaitingForEvents? {
      WaitingHandlesQuietly(me, run.runner, input);
      LeavingQuietly(Handle(me, run.runner, input).0);
    } else {
      HandleKeepsInvariant(me, run.runner, input);
    }
  }

  lemma {:induction false} EveryRunConnects(me: nat, inputs: seq<Input>)
    ensures ConnectInvariant(Execute(me, true, inputs).runner, Heard(me, inputs))
  {
    if inputs == [] {
      ActionsShort(JoinIntent(true), JoinIntent(true));
      assert Heard(me, inputs)[..0] == [];
    } else {
      var n := |inputs| - 1;
      var run, input := Execute(me, true, inputs[..n]), inputs[n];
      EveryRunConnects(me, inputs[..n]);
      EveryRun(me, inputs[..n]);
      if run.status == Running {
        if input.Global? {
          ConnectStep(me, run.runner, Heard(me, inputs[..n]), input.global);
        } else {
          EveryRun(me, inputs);
          StepKeepsInvariant(me, run, input);
          ActionsPrefix(run.runner.trace, Execute(me, true, inputs).runner.trace);
          WaitingIsKept(me, run, input);
        }
      }
    }
  }

  /**
    The voice gateway is opened at the first prefix of the heard history whose last update of each kind
    is complete, exactly once and with exactly those two updates' values; later updates change nothing.
   */
  lemma {:induction false} OpenedAtFirstCompletePrefix(me: nat, inputs: seq<Input>)
    ensures var heard, announced := Heard(me, inputs), Identities(Actions(Execute(me, true, inputs).runner.trace));
            && (announced == [] <==> NeverComplete(heard))
            && forall k: nat :: FirstComplete(heard, k) ==> announced == [IdentityAfter(heard[..k])]
  {
    EveryRunConnects(me, inputs);
    TraceShape(me, inputs);
    var run, heard := Execute(me, true, inputs), Heard(me, inputs);
    var actions := Actions(run.runner.trace);
    if run.status == Finished {
      var body :| WholeTrace(run.runner.trace, body);
      ActionsOfWhole(run.runner.trace, body);
      IdentitiesOfHandshake(Actions(body));
    } else {
      IdentitiesOfHandshake(actions);
    }
    if !run.runner.state.WaitingForEvents? {
      var k: nat :| FirstComplete(heard, k) && actions[0].identity == IdentityAfter(heard[..k]);
      assert forall j: nat :: FirstComplete(heard, j) ==> j == k;
      assert !NeverComplete(heard);
    }
  }

  /** The same, against the history the events are drawn from: the run has heard a prefix of it. */
  lemma {:induction false} OpenedFromHistory(me: nat, inputs: seq<Input>, history: seq<GlobalEvent>, k: nat)
    requires Heard(me, inputs) <= history && FirstComplete(history, k)
    ensures Identities(Actions(Execute(me, true, inputs).runner.trace)) ==
            if k <= |Heard(me, inputs)| then [IdentityAfter(history[..k])] else []
  {
    var heard := Heard(me, inputs);
    assert forall j :: 0 <= j <= |heard| ==> heard[..j] == history[..j];
    OpenedAtFirstCompletePrefix(me, inputs);
    if k <= |heard| {
      assert FirstComplete(heard, k);
    } else {
      assert NeverComplete(heard);
    }
  }

  /**
    Every user's updates are applied, so the session announced to the voice gateway is the bot's own exactly if the
    last state update of the first complete prefix names the bot.
   */
  lemma {:induction false} OwnSessionExactly(me: nat, inputs: seq<Input>, k: nat, owner: string -> nat)
    requires FirstComplete(Heard(me, inputs), k) && SessionsOwned(Heard(me, inputs), owner)
    ensures var announced := Identities(Actions(Execute(me, true, inputs).runner.trace));
            && |announced| == 1
            && (owner(announced[0].session) == me <==> LastUser(Heard(me, inputs)[..k]) == me)
  {
    OpenedAtFirstCompletePrefix(me, inputs);
    UpdatesOwned(Heard(me, inputs)[..k], owner);
  }

  /** The bot is user 1; an update of user 7 is the last one when the voice server becomes known. */
  lemma ForeignSessionAnnounced()
    ensures var inputs := [Global(VoiceState(StateUpdate(7, Some(2), Some(3), "foreign"))),
                           Global(VoiceServer(ServerUpdate(Some("host"), "token")))];
            Actions(Execute(1, true, inputs).runner.trace) == [SendIdentify(Identity("host", 2, "foreign", "token"))]
  {
    var inputs := [Global(VoiceState(StateUpdate(7, Some(2), Some(3), "foreign"))),
                   Global(VoiceServer(ServerUpdate(Some("host"), "token")))];
    ExecuteNext(1, true, inputs, 0);
    ExecuteNext(1, true, inputs, 1);
    assert inputs[..0] == [] && inputs[..2] == inputs;
    var trace := [JoinIntent(true), Gateway(SendIdentify(Identity("host", 2, "foreign", "token")))];
    assert Execute(1, true, inputs).runner.trace == trace;
    ActionsShort(trace[0], trace[1]);
  }
}
