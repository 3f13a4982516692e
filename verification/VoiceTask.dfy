/**
  The voice task: one run of the task that joins a voice channel, performs the
  voice-gateway handshake and then carries voice until it is told to leave.

  `Step` gives the meaning of handling one event on values; class `VoiceTaskRunner`
  is the loop that changes state in place and is proved against it. What the
  outside world answers (did the socket connect, did the send succeed) comes in
  with the event.
 */
module VoiceTask {
  import opened Prelude
  import opened EncryptionModes
  import opened ConnectInfo

  import DataChannel
  import VoiceGateway

  const KEY_SIZE: nat := 32

  /** Events handed to the call worker. */
  datatype VoiceEvent =
    | PacketReceived(packet: nat)
    | UserJoined(joined: nat, joinedSsrc: U32)
    | UserSpeaking(speaker: nat, speakerSsrc: U32)
    | UserLeft(left: nat)
    | FullyConnected
    | Closed

  /** Commands put on a voice gateway. */
  datatype GatewayAction =
    | SendIdentify(identity: Identity)
    | SendSelectProtocol(mode: EncryptionMode)
    | SendSpeaking
    | CloseGateway

  /** Everything a run does that can be seen from outside, in order. */
  datatype Effect =
    | JoinIntent(accepted: bool)
    | LeaveIntent
    | Gateway(action: GatewayAction)
    | Emit(event: VoiceEvent)
    | EncryptVoice(timestamp: U32)
    | Respond(success: bool)

  /** The gateway connection; only its presence matters. */
  datatype GatewayConnection = GatewayConnection(endpoint: string)

  /** The part of the data channel the runner's control flow depends on. */
  datatype Voice = Voice(crypto: Option<EncryptionMode>)

  datatype VoiceTaskState =
    | WaitingForEvents(info: WaitForConnectInfo)
    | WaitingForReady(gateway: Option<GatewayConnection>)
    | Connected(connection: GatewayConnection, voice: Voice, hasSession: bool)
  {
    function Rank(): nat {
      match this
      case WaitingForEvents(_) => 0
      case WaitingForReady(_) => 1
      case Connected(_, _, session) => if session then 3 else 2
    }

    predicate HasGateway() {
      Connected? || (WaitingForReady? && gateway.Some?)
    }

    predicate KeyInstalled() {
      Connected? && voice.crypto.Some?
    }
  }

  datatype Input =
    | Write(timestamp: U32, sent: bool)
    | CloseRequest
    | Global(global: GlobalEvent)
    | Ready(modes: seq<string>, connected: bool)
    | Speaking(user: Option<nat>, ssrc: U32)
    | SessionDescription(modeName: string, secretKey: seq<Byte>, speakingSent: bool)
    | ClientConnect(client: nat, audioSsrc: U32)
    | ClientDisconnect(gone: nat)
    | GatewayClosed
    | GatewayHello(interval: real)
    | Datagram(packet: nat, bytes: seq<Byte>, kind: DataChannel.Demuxed, opens: bool)
    | SocketError
    | SourceClosed

  /** How handling one event ends: normally, with an error leaving the loop, or with a panic. */
  datatype Result = Ok | Failed | Panic

  datatype Status = Running | Finished | Panicked

  datatype Runner = Runner(state: VoiceTaskState, closeRequested: bool, trace: seq<Effect>) {
    function Do(effects: seq<Effect>): Runner {
      this.(trace := trace + effects)
    }

    function SetState(s: VoiceTaskState): Runner {
      this.(state := s)
    }

    /** `VoiceTaskRunner::close` */
    function CloseDown(): Runner {
      Do((if state.HasGateway() then [Gateway(CloseGateway)] else []) + [LeaveIntent])
    }
  }

  function HandleReady(r: Runner, modes: seq<string>, connected: bool): (Runner, Result) {
    match r.state
    case WaitingForReady(gateway) =>
      if Best(modes).None? || !connected then (r, Failed)
      else if gateway.None? then (r, Panic)
      else
        (r.Do([Gateway(SendSelectProtocol(Best(modes).value))])
          .SetState(Connected(gateway.value, Voice(None), false)), Ok)
    case _ => (r, Ok)
  }

  /** Installs the key; the first time, the empty Speaking message has to go out before the session counts. */
  function InstallKey(r: Runner, mode: EncryptionMode, sent: bool): (Runner, Result)
    requires r.state.Connected?
  {
    var keyed := r.SetState(r.state.(voice := Voice(Some(mode))));
    if keyed.state.hasSession then (keyed.Do([Emit(FullyConnected)]), Ok)
    else
      var spoken := keyed.Do([Gateway(SendSpeaking)]);
      if !sent then (spoken, Failed)
      else (spoken.SetState(spoken.state.(hasSession := true)).Do([Emit(FullyConnected)]), Ok)
  }

  function HandleSession(r: Runner, name: string, key: seq<Byte>, sent: bool): (Runner, Result) {
    if !r.state.Connected? then (r, Ok)
    else
      match FromName(name)
      case None => (r, Failed)
      case Some(mode) => if |key| != KEY_SIZE then (r, Panic) else InstallKey(r, mode, sent)
  }

  function HandleWrite(r: Runner, timestamp: U32, sent: bool): Runner {
    if r.state.Connected? && r.state.hasSession && r.state.voice.crypto.Some? then
      r.Do([EncryptVoice(timestamp), Respond(sent)])
    else r.Do([Respond(false)])
  }

  function HandleGlobal(r: Runner, event: GlobalEvent): Runner {
    if r.state.WaitingForEvents? then
      var info := r.state.info.Apply(event);
      if info.IsComplete() then
        r.Do([Gateway(SendIdentify(info.Identify()))])
         .SetState(WaitingForReady(Some(GatewayConnection(info.endpoint.value))))
      else r.SetState(WaitingForEvents(info))
    else r
  }

  /** The gateway's `next_event`, while there is a gateway: it turns the interval into a `Duration`. */
  function HandleHello(r: Runner, interval: real): (Runner, Result) {
    (r, if r.state.HasGateway() && !VoiceGateway.IntervalFits(interval) then Panic else Ok)
  }

  /** The data channel's `receive_packet`, once connected: `opens` is what the cipher says of the packet. */
  function HandleDatagram(r: Runner, packet: nat, bytes: seq<Byte>, kind: DataChannel.Demuxed, opens: bool): (Runner, Result) {
    if !r.state.KeyInstalled() then (r, Ok)
    else if r.state.voice.crypto.value == Normal && DataChannel.LongHeader(DataChannel.Truncated(bytes), kind) then (r, Panic)
    else (if (kind.AsRtp? || kind.AsRtcp?) && opens then r.Do([Emit(PacketReceived(packet))]) else r, Ok)
  }

  /** An event about a user; `Id::new` panics on 0 before the worker is told anything. */
  function Tell(r: Runner, user: nat, event: VoiceEvent): (Runner, Result) {
    if user == 0 then (r, Panic) else (r.Do([Emit(event)]), Ok)
  }

  /** One turn of `wait_for_event` and `VoiceTaskRunner::handle_event` */
  function Handle(me: nat, r: Runner, input: Input): (Runner, Result) {
    match input
    case Write(timestamp, sent) => (HandleWrite(r, timestamp, sent), Ok)
    case CloseRequest => (r.Do([Respond(true)]).(closeRequested := true), Ok)
    case Global(event) => (HandleGlobal(r, event), Ok)
    case Ready(modes, connected) => HandleReady(r, modes, connected)
    case Speaking(user, ssrc) =>
      if user.Some? then Tell(r, user.value, UserSpeaking(user.value, ssrc)) else (r, Ok)
    case SessionDescription(name, key, sent) => HandleSession(r, name, key, sent)
    case ClientConnect(user, ssrc) => Tell(r, user, UserJoined(user, ssrc))
    case ClientDisconnect(user) => Tell(r.(closeRequested := r.closeRequested || user == me), user, UserLeft(user))
    case GatewayClosed => (r.(closeRequested := true), Ok)
    case GatewayHello(interval) => HandleHello(r, interval)
    case Datagram(packet, bytes, kind, opens) => HandleDatagram(r, packet, bytes, kind, opens)
    case SocketError => (r, Ok)
    case SourceClosed => (r.(closeRequested := true), Ok)
  }

  datatype Run = Run(runner: Runner, status: Status)

  function Begin(joined: bool): Run {
    var r := Runner(WaitingForEvents(NOTHING_KNOWN), false, [JoinIntent(joined)]);
    if joined then Run(r, Running) else Run(r.Do([Emit(Closed)]), Finished)
  }

  /** One turn of the loop; nothing is handled once the run is over. */
  function Step(me: nat, run: Run, input: Input): Run {
    if run.status != Running then run
    else
      match Handle(me, run.runner, input)
      case (r, Ok) => if r.closeRequested then Run(r.CloseDown(), Finished) else Run(r, Running)
      case (r, Failed) => Run(r.CloseDown(), Finished)
      case (r, Panic) => Run(r, Panicked)
  }

  function Execute(me: nat, joined: bool, inputs: seq<Input>): Run {
    if inputs == [] then Begin(joined)
    else Step(me, Execute(me, joined, inputs[..|inputs| - 1]), inputs[|inputs| - 1])
  }

  lemma ExecuteNext(me: nat, joined: bool, inputs: seq<Input>, i: nat)
    requires i < |inputs|
    ensures Execute(me, joined, inputs[..i + 1]) == Step(me, Execute(me, joined, inputs[..i]), inputs[i])
  {
    assert inputs[..i + 1][..i] == inputs[..i];
  }

  /** Once a run is over, further events change nothing. */
  lemma {:induction false} OverStaysOver(me: nat, joined: bool, inputs: seq<Input>, i: nat)
    requires i <= |inputs|
    ensures Execute(me, joined, inputs[..i]).status != Running ==>
              Execute(me, joined, inputs) == Execute(me, joined, inputs[..i])
    decreases |inputs| - i
  {
    if i == |inputs| {
      assert inputs[..i] == inputs;
    } else {
      ExecuteNext(me, joined, inputs, i);
      OverStaysOver(me, joined, inputs, i + 1);
    }
  }

  class VoiceTaskRunner {
    const me: nat
    var state: VoiceTaskState
    var closeRequested: bool
    var trace: seq<Effect>

    constructor (me: nat)
      ensures this.me == me && View() == Runner(WaitingForEvents(NOTHING_KNOWN), false, [])
    {
      this.me := me;
      state, closeRequested, trace := WaitingForEvents(NOTHING_KNOWN), false, [];
    }

    ghost function View(): Runner
      reads this
    {
      Runner(state, closeRequested, trace)
    }

    method Perform(effect: Effect)
      modifies this`trace
      ensures trace == old(trace) + [effect]
    {
      trace := trace + [effect];
    }

    method HandleSessionDescription(name: string, key: seq<Byte>, sent: bool) returns (result: Result)
      modifies this
      ensures (View(), result) == HandleSession(old(View()), name, key, sent)
    {
      if !state.Connected? {
        return Ok;
      }
      var mode := FromName(name);
      if mode == None {
        return Failed;
      }
      if |key| != KEY_SIZE {
        return Panic;
      }
      state := state.(voice := Voice(mode));
      if !state.hasSession {
        Perform(Gateway(SendSpeaking));
        if !sent {
          return Failed;
        }
      }
      state := state.(hasSession := true);
      Perform(Emit(FullyConnected));
      return Ok;
    }

    method HandleReadyEvent(modes: seq<string>, connected: bool) returns (result: Result)
      modifies this
      ensures (View(), result) == HandleReady(old(View()), modes, connected)
    {
      if !state.WaitingForReady? {
        return Ok;
      }
      var mode := Best(modes);
      if mode == None || !connected {
        return Failed;
      }
      if state.gateway == None {
        return Panic;
      }
      Perform(Gateway(SendSelectProtocol(mode.value)));
      state := Connected(state.gateway.value, Voice(None), false);
      return Ok;
    }

    method HandleGlobalEvent(event: GlobalEvent)
      modifies this
      ensures View() == HandleGlobal(old(View()), event)
    {
      if state.WaitingForEvents? {
        state := WaitingForEvents(state.info.Apply(event));
        if state.info.IsComplete() {
          Perform(Gateway(SendIdentify(state.info.Identify())));
          state := WaitingForReady(Some(GatewayConnection(state.info.endpoint.value)));
        }
      }
    }

    method TellWorker(user: nat, event: VoiceEvent) returns (result: Result)
      modifies this`trace
      ensures (View(), result) == Tell(old(View()), user, event)
    {
      if user == 0 {
        return Panic;
      }
      Perform(Emit(event));
      return Ok;
    }

    method ReceiveDatagram(packet: nat, bytes: seq<Byte>, kind: DataChannel.Demuxed, opens: bool) returns (result: Result)
      modifies this`trace
      ensures (View(), result) == HandleDatagram(old(View()), packet, bytes, kind, opens)
    {
      if !state.KeyInstalled() {
        return Ok;
      }
      if state.voice.crypto == Some(Normal) && DataChannel.LongHeader(DataChannel.Truncated(bytes), kind) {
        return Panic;
      }
      if (kind.AsRtp? || kind.AsRtcp?) && opens {
        Perform(Emit(PacketReceived(packet)));
      }
      return Ok;
    }

    method HandleEvent(input: Input) returns (result: Result)
      modifies this
      ensures (View(), result) == Handle(me, old(View()), input)
    {
      result := Ok;
      match input {
        case Write(timestamp, sent) =>
          var ready := state.Connected? && state.hasSession && state.voice.crypto.Some?;
          if ready {
            Perform(EncryptVoice(timestamp));
          }
          Perform(Respond(ready && sent));
          assert ready ==> trace == old(trace) + [EncryptVoice(timestamp), Respond(sent)];
        case CloseRequest =>
          Perform(Respond(true));
          closeRequested := true;
        case Global(event) =>
          HandleGlobalEvent(event);
        case Ready(modes, connected) =>
          result := HandleReadyEvent(modes, connected);
        case Speaking(user, ssrc) =>
          if user.Some? {
            result := TellWorker(user.value, UserSpeaking(user.value, ssrc));
          }
        case SessionDescription(name, key, sent) =>
          result := HandleSessionDescription(name, key, sent);
        case ClientConnect(user, ssrc) =>
          result := TellWorker(user, UserJoined(user, ssrc));
        case ClientDisconnect(user) =>
          if user == me {
            closeRequested := true;
          }
          result := TellWorker(user, UserLeft(user));
        case GatewayClosed =>
          closeRequested := true;
        case GatewayHello(interval) =>
          if state.HasGateway() && !VoiceGateway.IntervalFits(interval) {
            result := Panic;
          }
        case Datagram(packet, bytes, kind, opens) =>
          result := ReceiveDatagram(packet, bytes, kind, opens);
        case SocketError =>
        case SourceClosed =>
          closeRequested := true;
      }
    }

    method Close()
      modifies this
      ensures View() == old(View()).CloseDown()
    {
      if state.HasGateway() {
        Perform(Gateway(CloseGateway));
      }
      Perform(LeaveIntent);
    }

    /** The whole task, over whatever events arrive; stops early if they run out. */
    method RunTask(joined: bool, inputs: seq<Input>) returns (status: Status)
      requires View() == Runner(WaitingForEvents(NOTHING_KNOWN), false, [])
      modifies this
      ensures Run(View(), status) == Execute(me, joined, inputs)
    {
      Perform(JoinIntent(joined));
      if !joined {
        Perform(Emit(Closed));
        OverStaysOver(me, joined, inputs, 0);
        assert inputs[..0] == [];
        return Finished;
      }
      var i, broken := 0, false;
      while !closeRequested && !broken
        invariant 0 <= i <= |inputs|
        invariant Execute(me, joined, inputs[..i]) ==
                  if closeRequested || broken then Run(View().CloseDown(), Finished) else Run(View(), Running)
        decreases |inputs| - i
      {
        if i == |inputs| {
          assert inputs[..i] == inputs;
          return Running;
        }
        ExecuteNext(me, joined, inputs, i);
        var result := HandleEvent(inputs[i]);
        i := i + 1;
        if result == Panic {
          OverStaysOver(me, joined, inputs, i);
          return Panicked;
        }
        broken := result == Failed;
      }
      OverStaysOver(me, joined, inputs, i);
      Close();
      return Finished;
    }
  }
}
