/** The voice server's coordinates, gathered from events of the global Discord gateway. */
module ConnectInfo {
  import opened Prelude

  /** A user's voice state. The session is that user's, whoever the user is. */
  datatype StateUpdate = StateUpdate(user: nat, guild: Option<nat>, channel: Option<nat>, session: string)

  datatype ServerUpdate = ServerUpdate(endpoint: Option<string>, token: string)

  datatype GlobalEvent =
    | VoiceState(state: StateUpdate)
    | VoiceServer(server: ServerUpdate)
    | OtherEvent

  /** What the voice gateway is opened with. */
  datatype Identity = Identity(endpoint: string, guild: nat, session: string, token: string)

  datatype WaitForConnectInfo = WaitForConnectInfo(
    guild: Option<nat>,
    channel: Option<nat>,
    session: Option<string>,
    token: Option<string>,
    endpoint: Option<string>)
  {
    function Apply(event: GlobalEvent): WaitForConnectInfo {
      match event
      case VoiceState(u) => this.(guild := u.guild, channel := u.channel, session := Some(u.session))
      case VoiceServer(u) => this.(endpoint := u.endpoint, token := Some(u.token))
      case OtherEvent => this
    }

    predicate IsComplete() {
      token.Some? && endpoint.Some? && guild.Some? && channel.Some? && session.Some?
    }

    function Identify(): Identity
      requires IsComplete()
    {
      Identity(endpoint.value, guild.value, session.value, token.value)
    }
  }

  const NOTHING_KNOWN := WaitForConnectInfo(None, None, None, None, None)

  function ApplyAll(events: seq<GlobalEvent>): WaitForConnectInfo {
    if events == [] then NOTHING_KNOWN
    else ApplyAll(events[..|events| - 1]).Apply(events[|events| - 1])
  }

  function StateUpdates(events: seq<GlobalEvent>): seq<StateUpdate> {
    if events == [] then []
    else
      var rest, e := StateUpdates(events[..|events| - 1]), events[|events| - 1];
      if e.VoiceState? then rest + [e.state] else rest
  }

  function ServerUpdates(events: seq<GlobalEvent>): seq<ServerUpdate> {
    if events == [] then []
    else
      var rest, e := ServerUpdates(events[..|events| - 1]), events[|events| - 1];
      if e.VoiceServer? then rest + [e.server] else rest
  }

  /** The last update of each kind is there and says everything needed. */
  predicate Complete(states: seq<StateUpdate>, servers: seq<ServerUpdate>) {
    && states != [] && servers != []
    && states[|states| - 1].guild.Some? && states[|states| - 1].channel.Some?
    && servers[|servers| - 1].endpoint.Some?
  }

  predicate CompleteAfter(events: seq<GlobalEvent>) {
    Complete(StateUpdates(events), ServerUpdates(events))
  }

  /** The identity spelled by the last update of each kind. */
  function IdentityAfter(events: seq<GlobalEvent>): Identity
    requires CompleteAfter(events)
  {
    var states, servers := StateUpdates(events), ServerUpdates(events);
    var state, server := states[|states| - 1], servers[|servers| - 1];
    Identity(server.endpoint.value, state.guild.value, state.session, server.token)
  }

  /** The user whose update comes last. */
  function LastUser(events: seq<GlobalEvent>): nat
    requires CompleteAfter(events)
  {
    var states := StateUpdates(events);
    states[|states| - 1].user
  }

  /** Sessions belong to the users they are announced for. */
  ghost predicate SessionsOwned(events: seq<GlobalEvent>, owner: string -> nat) {
    forall i :: 0 <= i < |events| && events[i].VoiceState? ==> owner(events[i].state.session) == events[i].state.user
  }

  lemma {:induction false} UpdatesOwned(events: seq<GlobalEvent>, owner: string -> nat)
    requires SessionsOwned(events, owner)
    ensures forall i :: 0 <= i < |StateUpdates(events)| ==>
              owner(StateUpdates(events)[i].session) == StateUpdates(events)[i].user
  {
    if events != [] {
      UpdatesOwned(events[..|events| - 1], owner);
    }
  }

  /** The shortest complete prefix of a history, if there is one. */
  ghost predicate FirstComplete(events: seq<GlobalEvent>, k: nat) {
    && k <= |events|
    && CompleteAfter(events[..k])
    && forall j :: 0 <= j < k ==> !CompleteAfter(events[..j])
  }

  ghost predicate NeverComplete(events: seq<GlobalEvent>) {
    forall j :: 0 <= j <= |events| ==> !CompleteAfter(events[..j])
  }

  /** Overwriting field by field remembers exactly the last update of each kind, however they interleave. */
  lemma {:induction false} ApplyRemembersLast(events: seq<GlobalEvent>)
    ensures var states, servers, info := StateUpdates(events), ServerUpdates(events), ApplyAll(events);
            && info.session == (if states == [] then None else Some(states[|states| - 1].session))
            && info.guild == (if states == [] then None else states[|states| - 1].guild)
            && info.channel == (if states == [] then None else states[|states| - 1].channel)
            && info.token == (if servers == [] then None else Some(servers[|servers| - 1].token))
            && info.endpoint == (if servers == [] then None else servers[|servers| - 1].endpoint)
    ensures ApplyAll(events).IsComplete() <==> CompleteAfter(events)
    ensures CompleteAfter(events) ==> ApplyAll(events).Identify() == IdentityAfter(events)
  {
    if events != [] {
      ApplyRemembersLast(events[..|events| - 1]);
    }
  }

  /** Histories agreeing on the two kinds separately agree on completeness and on the identity. */
  lemma InterleavingIrrelevant(a: seq<GlobalEvent>, b: seq<GlobalEvent>)
    requires StateUpdates(a) == StateUpdates(b) && ServerUpdates(a) == ServerUpdates(b)
    ensures ApplyAll(a) == ApplyAll(b)
    ensures CompleteAfter(a) <==> CompleteAfter(b)
    ensures CompleteAfter(a) ==> IdentityAfter(a) == IdentityAfter(b)
  {
    ApplyRemembersLast(a);
    ApplyRemembersLast(b);
  }

  /** One more event extends a history's first complete prefix, or does not touch it. */
  lemma FirstCompleteStep(events: seq<GlobalEvent>, event: GlobalEvent)
    ensures forall k: nat :: FirstComplete(events, k) ==>
              FirstComplete(events + [event], k) && (events + [event])[..k] == events[..k]
    ensures NeverComplete(events) && CompleteAfter(events + [event]) ==> FirstComplete(events + [event], |events| + 1)
    ensures NeverComplete(events) && !CompleteAfter(events + [event]) ==> NeverComplete(events + [event])
  {
    var more := events + [event];
    assert forall j :: 0 <= j <= |events| ==> more[..j] == events[..j];
    assert more[..|more|] == more;
    forall k: nat | FirstComplete(events, k)
      ensures FirstComplete(more, k) && more[..k] == events[..k]
    {
      assert more[..k] == events[..k];
    }
  }
}
