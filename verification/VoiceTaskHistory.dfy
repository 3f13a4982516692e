/**
  A run of the voice task, told from the events it has handled alone: no state, only what has happened so far. The
  task's own state is a faithful summary of that, over every run.
 */
module VoiceTaskHistory {
  import opened Prelude
  import opened EncryptionModes
  import opened ConnectInfo
  import opened VoiceTask
  import opened VoiceTaskSafety

  import DataChannel
  import VoiceGateway

  // What has happened so far

  function GlobalsIn(handled: seq<Input>): seq<GlobalEvent> {
    if handled == [] then []
    else
      var rest, last := GlobalsIn(handled[..|handled| - 1]), handled[|handled| - 1];
      if last.Global? then rest + [last.global] else rest
  }

  /** At some point the last updates heard said everything needed, so the gateway was opened. */
  predicate IsOpened(handled: seq<Input>) {
    handled != [] &&
    var init, last := handled[..|handled| - 1], handled[|handled| - 1];
    IsOpened(init) || (last.Global? && CompleteAfter(GlobalsIn(handled)))
  }

  /** The voice server is ready, offers a mode we know, and its voice channel could be connected to. */
  predicate Welcomes(e: Input) {
    e.Ready? && e.connected && exists name :: name in e.modes && FromName(name).Some?
  }

  predicate IsConnected(handled: seq<Input>) {
    handled != [] &&
    var init, last := handled[..|handled| - 1], handled[|handled| - 1];
    IsConnected(init) || (IsOpened(init) && Welcomes(last))
  }

  /** A session description that is listened to, names a mode we know and has a key of 32 bytes. */
  predicate IsSession(handled: seq<Input>, e: Input) {
    IsConnected(handled) && e.SessionDescription? && FromName(e.modeName).Some? && |e.secretKey| == 32
  }

  /** The mode named by the last of them. */
  function ModeNamed(handled: seq<Input>): Option<EncryptionMode> {
    if handled == [] then None
    else
      var init, last := handled[..|handled| - 1], handled[|handled| - 1];
      if IsSession(init, last) then FromName(last.modeName) else ModeNamed(init)
  }

  /** The event at this place of the history is one of them. */
  predicate IsSessionAt(handled: seq<Input>, i: nat) {
    i < |handled| && IsSession(handled[..i], handled[i])
  }

  predicate IsLastSession(handled: seq<Input>, i: nat) {
    IsSessionAt(handled, i) && forall j: nat :: i < j < |handled| ==> !IsSessionAt(handled, j)
  }

  lemma SameInLonger(init: seq<Input>, last: Input, i: nat)
    requires i < |init|
    ensures IsSessionAt(init + [last], i) <==> IsSessionAt(init, i)
  {
    assert (init + [last])[..i] == init[..i];
  }

  lemma LastInLonger(init: seq<Input>, last: Input, i: nat)
    requires IsLastSession(init, i) && !IsSession(init, last)
    ensures IsLastSession(init + [last], i)
  {
    SameInLonger(init, last, i);
    forall j: nat | i < j < |init + [last]|
      ensures !IsSessionAt(init + [last], j)
    {
      if j < |init| {
        SameInLonger(init, last, j);
      } else {
        assert (init + [last])[..j] == init;
      }
    }
  }

  lemma LastIsLast(init: seq<Input>, last: Input)
    requires IsSession(init, last)
    ensures IsLastSession(init + [last], |init|)
  {
    assert (init + [last])[..|init|] == init;
  }

  /** The mode is that of the last of them. */
  lemma {:induction false} LastOneNamed(handled: seq<Input>)
    requires ModeNamed(handled).Some?
    ensures exists i: nat :: IsLastSession(handled, i) && ModeNamed(handled) == FromName(handled[i].modeName)
  {
    var init, last := handled[..|handled| - 1], handled[|handled| - 1];
    assert handled == init + [last];
    if IsSession(init, last) {
      LastIsLast(init, last);
    } else {
      LastOneNamed(init);
      var i: nat :| IsLastSession(init, i) && ModeNamed(init) == FromName(init[i].modeName);
      LastInLonger(init, last, i);
    }
  }

  /** Without one there is no mode. */
  lemma {:induction false} NoneNamed(handled: seq<Input>, i: nat)
    requires ModeNamed(handled) == None
    ensures !IsSessionAt(handled, i)
  {
    if i < |handled| {
      var init, last := handled[..|handled| - 1], handled[|handled| - 1];
      assert handled == init + [last];
      NoneNamed(init, i);
      if i < |init| {
        SameInLonger(init, last, i);
      }
    }
  }

  /** One of them was followed by a Speaking command that could be sent. */
  predicate HasSession(handled: seq<Input>) {
    handled != [] &&
    var init, last := handled[..|handled| - 1], handled[|handled| - 1];
    HasSession(init) || (IsSession(init, last) && last.speakingSent)
  }

  // What an event does, after what has happened so far

  /** The packet can be opened with the mode last named. */
  predicate IsHeard(handled: seq<Input>, e: Input) {
    && e.Datagram? && ModeNamed(handled).Some? && e.opens && (e.kind.AsRtp? || e.kind.AsRtcp?)
    && !(ModeNamed(handled) == Some(Normal) && DataChannel.LongHeader(DataChannel.Truncated(e.bytes), e.kind))
  }

  /** What the worker is told, if anything. */
  function Told(handled: seq<Input>, e: Input): Option<VoiceEvent> {
    match e
    case Speaking(Some(user), ssrc) => if user == 0 then None else Some(UserSpeaking(user, ssrc))
    case ClientConnect(user, ssrc) => if user == 0 then None else Some(UserJoined(user, ssrc))
    case ClientDisconnect(user) => if user == 0 then None else Some(UserLeft(user))
    case Datagram(packet, _, _, _) => if IsHeard(handled, e) then Some(PacketReceived(packet)) else None
    case SessionDescription(_, _, sent) =>
      if IsSession(handled, e) && (sent || HasSession(handled)) then Some(FullyConnected) else None
    case _ => None
  }

  /** What is sent on the voice gateway, if anything. */
  function Sent(handled: seq<Input>, e: Input): Option<GatewayAction> {
    match e
    case Global(_) =>
      if !IsOpened(handled) && CompleteAfter(GlobalsIn(handled + [e]))
      then Some(SendIdentify(IdentityAfter(GlobalsIn(handled + [e])))) else None
    case Ready(modes, _) =>
      if IsOpened(handled) && !IsConnected(handled) && Welcomes(e) && Best(modes).Some?
      then Some(SendSelectProtocol(Best(modes).value)) else None
    case SessionDescription(_, _, _) => if IsSession(handled, e) && !HasSession(handled) then Some(SendSpeaking) else None
    case _ => None
  }

  /** What the event comes to; a requester is answered, and a write encrypted first. */
  function EffectsOf(handled: seq<Input>, e: Input): seq<Effect> {
    match e
    case Write(timestamp, sent) =>
      if HasSession(handled) then [EncryptVoice(timestamp), Respond(sent)] else [Respond(false)]
    case CloseRequest => [Respond(true)]
    case _ =>
      match (Sent(handled, e), Told(handled, e))
      case (None, None) => []
      case (None, Some(event)) => [Emit(event)]
      case (Some(action), None) => [Gateway(action)]
      case (Some(action), Some(event)) => [Gateway(action), Emit(event)]
  }

  predicate Panics(handled: seq<Input>, e: Input) {
    || UserIdZero(e)
    || (e.SessionDescription? && IsConnected(handled) && FromName(e.modeName).Some? && |e.secretKey| != 32)
    || (e.Datagram? && ModeNamed(handled) == Some(Normal)
        && DataChannel.LongHeader(DataChannel.Truncated(e.bytes), e.kind))
    || (e.GatewayHello? && IsOpened(handled) && !VoiceGateway.IntervalFits(e.interval))
  }

  /** The task is asked to end, or cannot go on. */
  predicate Finishes(me: nat, handled: seq<Input>, e: Input) {
    match e
    case CloseRequest => true
    case GatewayClosed => true
    case SourceClosed => true
    case ClientDisconnect(user) => user == me
    case Ready(_, _) => IsOpened(handled) && !IsConnected(handled) && !Welcomes(e)
    case SessionDescription(name, _, sent) =>
      IsConnected(handled) && (FromName(name) == None || (!HasSession(handled) && !sent))
    case _ => false
  }

  function StatusAfter(me: nat, handled: seq<Input>): Status {
    if handled == [] then Running
    else
      var init, last := handled[..|handled| - 1], handled[|handled| - 1];
      if Panics(init, last) then Panicked else if Finishes(me, init, last) then Finished else Running
  }

  /** Of these events, those handled: all up to the one that ends the run. */
  function HandledOf(me: nat, inputs: seq<Input>): seq<Input> {
    if inputs == [] then []
    else
      var before := HandledOf(me, inputs[..|inputs| - 1]);
      if StatusAfter(me, before) == Running then before + [inputs[|inputs| - 1]] else before
  }

  function EffectsUpTo(handled: seq<Input>): seq<Effect> {
    if handled == [] then [JoinIntent(true)]
    else EffectsUpTo(handled[..|handled| - 1]) + EffectsOf(handled[..|handled| - 1], handled[|handled| - 1])
  }

  /** Everything a run does: a run that is finished closes its gateway, if it ever had one, and leaves. */
  function TraceOf(me: nat, handled: seq<Input>): seq<Effect> {
    EffectsUpTo(handled) +
    if StatusAfter(me, handled) != Finished then []
    else if IsOpened(handled) then [Gateway(CloseGateway), LeaveIntent] else [LeaveIntent]
  }

  // The state is a summary of what has happened

  predicate StateFits(state: VoiceTaskState, handled: seq<Input>) {
    match state
    case WaitingForEvents(info) => !IsOpened(handled) && !IsConnected(handled) && info == ApplyAll(GlobalsIn(handled))
    case WaitingForReady(gateway) => gateway.Some? && IsOpened(handled) && !IsConnected(handled)
    case Connected(_, voice, hasSession) =>
      && IsOpened(handled) && IsConnected(handled)
      && voice.crypto == ModeNamed(handled) && hasSession == HasSession(handled)
  }

  predicate Summary(r: Runner, handled: seq<Input>) {
    && !r.closeRequested
    && StateFits(r.state, handled) && r.trace == EffectsUpTo(handled)
  }

  lemma {:induction false} NothingBeforeConnecting(handled: seq<Input>)
    ensures IsConnected(handled) ==> IsOpened(handled)
    ensures !IsConnected(handled) ==> ModeNamed(handled) == None && !HasSession(handled)
    ensures HasSession(handled) ==> ModeNamed(handled).Some?
  {
    if handled != [] {
      NothingBeforeConnecting(handled[..|handled| - 1]);
    }
  }

  lemma OneMore(handled: seq<Input>, e: Input)
    ensures (handled + [e])[..|handled|] == handled
    ensures GlobalsIn(handled + [e]) == if e.Global? then GlobalsIn(handled) + [e.global] else GlobalsIn(handled)
    ensures IsOpened(handled + [e]) <==> IsOpened(handled) || (e.Global? && CompleteAfter(GlobalsIn(handled + [e])))
    ensures IsConnected(handled + [e]) <==> IsConnected(handled) || (IsOpened(handled) && Welcomes(e))
    ensures ModeNamed(handled + [e]) == if IsSession(handled, e) then FromName(e.modeName) else ModeNamed(handled)
    ensures HasSession(handled + [e]) <==> HasSession(handled) || (IsSession(handled, e) && e.speakingSent)
    ensures EffectsUpTo(handled + [e]) == EffectsUpTo(handled) + EffectsOf(handled, e)
  {
    assert (handled + [e])[..|handled|] == handled;
  }

  /** The state and the result that handling an event must come to. */
  predicate GoesOnAs(me: nat, handled: seq<Input>, e: Input, r': Runner, result: Result) {
    && StateFits(r'.state, handled + [e])
    && (result == Panic <==> Panics(handled, e))
    && (result != Panic ==> (result == Failed || r'.closeRequested <==> Finishes(me, handled, e)))
  }

  predicate HandledAs(me: nat, r: Runner, handled: seq<Input>, e: Input, r': Runner, result: Result) {
    GoesOnAs(me, handled, e, r', result) && r'.trace == r.trace + EffectsOf(handled, e)
  }

  lemma WelcomesExactly(modes: seq<string>, connected: bool)
    ensures Welcomes(Ready(modes, connected)) <==> Best(modes).Some? && connected
  {
    BestMode(modes);
  }

  lemma ReadyAsTold(me: nat, r: Runner, handled: seq<Input>, modes: seq<string>, connected: bool)
    requires Summary(r, handled)
    ensures var (r', result) := HandleReady(r, modes, connected);
            HandledAs(me, r, handled, Ready(modes, connected), r', result)
  {
    OneMore(handled, Ready(modes, connected));
    NothingBeforeConnecting(handled);
    WelcomesExactly(modes, connected);
  }

  lemma KeyInstalledGoesOn(me: nat, r: Runner, handled: seq<Input>, e: Input)
    requires Summary(r, handled) && IsSession(handled, e)
    ensures var (r', result) := InstallKey(r, FromName(e.modeName).value, e.speakingSent);
            GoesOnAs(me, handled, e, r', result)
  {
    OneMore(handled, e);
  }

  lemma KeyInstalledTrace(r: Runner, handled: seq<Input>, e: Input)
    requires StateFits(r.state, handled) && IsSession(handled, e)
    ensures InstallKey(r, FromName(e.modeName).value, e.speakingSent).0.trace == r.trace + EffectsOf(handled, e)
  {
    var speaking, announced := [Gateway(SendSpeaking)], [Emit(FullyConnected)];
    assert r.trace + speaking + announced == r.trace + [Gateway(SendSpeaking), Emit(FullyConnected)];
  }

  lemma SessionAsTold(me: nat, r: Runner, handled: seq<Input>, name: string, key: seq<Byte>, sent: bool)
    requires Summary(r, handled)
    ensures var (r', result) := HandleSession(r, name, key, sent);
            HandledAs(me, r, handled, SessionDescription(name, key, sent), r', result)
  {
    var e := SessionDescription(name, key, sent);
    if IsSession(handled, e) {
      KeyInstalledGoesOn(me, r, handled, e);
      KeyInstalledTrace(r, handled, e);
    } else {
      OneMore(handled, e);
      assert r.trace + [] == r.trace;
    }
  }

  lemma GlobalAsTold(me: nat, r: Runner, handled: seq<Input>, event: GlobalEvent)
    requires Summary(r, handled)
    ensures HandledAs(me, r, handled, Global(event), HandleGlobal(r, event), Ok)
  {
    OneMore(handled, Global(event));
    ApplyRemembersLast(GlobalsIn(handled) + [event]);
    assert (GlobalsIn(handled) + [event])[..|GlobalsIn(handled)|] == GlobalsIn(handled);
    assert r.trace + [] == r.trace;
  }

  lemma WriteAsTold(me: nat, r: Runner, handled: seq<Input>, timestamp: U32, sent: bool)
    requires Summary(r, handled)
    ensures HandledAs(me, r, handled, Write(timestamp, sent), HandleWrite(r, timestamp, sent), Ok)
  {
    OneMore(handled, Write(timestamp, sent));
    NothingBeforeConnecting(handled);
  }

  /** Events that leave the state as it is. */
  lemma PlainGoesOn(me: nat, r: Runner, handled: seq<Input>, e: Input)
    requires Summary(r, handled) && IsPlain(e)
    ensures var (r', result) := Handle(me, r, e); GoesOnAs(me, handled, e, r', result)
  {
    OneMore(handled, e);
    NothingBeforeConnecting(handled);
  }

  lemma PlainTrace(me: nat, r: Runner, handled: seq<Input>, e: Input)
    requires StateFits(r.state, handled) && IsPlain(e)
    ensures Handle(me, r, e).0.trace == r.trace + EffectsOf(handled, e)
  {
    NothingBeforeConnecting(handled);
    assert r.trace + [] == r.trace;
  }

  /** Whatever comes next, handling it does what the history so far says, and the state is a summary again. */
  lemma HandledAsTold(me: nat, r: Runner, handled: seq<Input>, e: Input)
    requires Summary(r, handled)
    ensures var (r', result) := Handle(me, r, e); HandledAs(me, r, handled, e, r', result)
  {
    match e
    case Write(timestamp, sent) => WriteAsTold(me, r, handled, timestamp, sent);
    case Global(event) => GlobalAsTold(me, r, handled, event);
    case Ready(modes, connected) => ReadyAsTold(me, r, handled, modes, connected);
    case SessionDescription(name, key, sent) => SessionAsTold(me, r, handled, name, key, sent);
    case _ =>
      PlainGoesOn(me, r, handled, e);
      PlainTrace(me, r, handled, e);
  }

  predicate RunSummary(me: nat, run: Run, handled: seq<Input>) {
    && run.status == StatusAfter(me, handled)
    && StateFits(run.runner.state, handled) && run.runner.trace == TraceOf(me, handled)
    && (run.status == Running ==> !run.runner.closeRequested)
  }

  /** However it ends, the trace is what it was, what the event comes to, and the closing down of a run that is finished. */
  lemma TraceAsTold(me: nat, r: Runner, handled: seq<Input>, e: Input, r': Runner, result: Result)
    requires Summary(r, handled) && HandledAs(me, r, handled, e, r', result)
    ensures StatusAfter(me, handled + [e]) ==
            if result == Panic then Panicked else if result == Failed || r'.closeRequested then Finished else Running
    ensures r'.trace == EffectsUpTo(handled + [e])
    ensures r'.state.HasGateway() <==> IsOpened(handled + [e])
  {
    OneMore(handled, e);
  }

  lemma ClosedAsTold(me: nat, r: Runner, handled: seq<Input>)
    requires r.trace == EffectsUpTo(handled) && (r.state.HasGateway() <==> IsOpened(handled))
    requires StatusAfter(me, handled) == Finished
    ensures r.CloseDown().trace == TraceOf(me, handled) && r.CloseDown().state == r.state
  {
  }

  lemma OpenAsTold(me: nat, handled: seq<Input>)
    requires StatusAfter(me, handled) != Finished
    ensures TraceOf(me, handled) == EffectsUpTo(handled)
  {
  }

  lemma StepAsTold(me: nat, run: Run, handled: seq<Input>, e: Input)
    requires RunSummary(me, run, handled) && run.status == Running
    ensures RunSummary(me, Step(me, run, e), handled + [e])
  {
    var (r', result) := Handle(me, run.runner, e);
    OpenAsTold(me, handled);
    HandledAsTold(me, run.runner, handled, e);
    TraceAsTold(me, run.runner, handled, e, r', result);
    if StatusAfter(me, handled + [e]) == Finished {
      ClosedAsTold(me, r', handled + [e]);
    } else {
      OpenAsTold(me, handled + [e]);
    }
  }

  /**
    Every run is told by the events it has handled: how it stands, everything it has done, in order, and the mode it
    encrypts with, which is the one named by the last session description it could use.
   */
  lemma {:induction false} RunIsItsHistory(me: nat, inputs: seq<Input>)
    ensures var run, handled := Execute(me, true, inputs), HandledOf(me, inputs);
            && run.status == StatusAfter(me, handled) && run.runner.trace == TraceOf(me, handled)
            && (run.runner.state.Connected? <==> IsConnected(handled))
            && (run.runner.state.Connected? ==> run.runner.state.voice.crypto == ModeNamed(handled))
            && RunSummary(me, run, handled)
  {
    if inputs != [] {
      var init := inputs[..|inputs| - 1];
      RunIsItsHistory(me, init);
      if StatusAfter(me, HandledOf(me, init)) == Running {
        StepAsTold(me, Execute(me, true, init), HandledOf(me, init), inputs[|inputs| - 1]);
      }
    } else {
      assert [JoinIntent(true)] + [] == [JoinIntent(true)];
    }
  }
}
