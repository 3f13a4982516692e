/** The participants of a call, and where every payload ever boxed for them is. */
module Ownership {
  import opened Prelude
  import opened JitterBuffers

  datatype OtherParticipant = OtherParticipant(
    initialTimestamp: Option<U32>,
    jitterbuf: Option<Jitter>,
    lastVoiceLength: nat)

  /** By SSRC. */
  type Participants = map<nat, OtherParticipant>

  predicate HasBuffer(ps: Participants, s: nat) {
    s in ps && ps[s].jitterbuf.Some?
  }

  /** What is queued for an SSRC; nothing if there is no such participant or buffer. */
  function Queue(ps: Participants, s: nat): seq<Frame> {
    if HasBuffer(ps, s) then ps[s].jitterbuf.value.queue else []
  }

  /** When an SSRC's next frame is due, if one is scheduled. */
  function NextTime(ps: Participants, s: nat): Option<nat> {
    if HasBuffer(ps, s) then ps[s].jitterbuf.value.NextFrame() else None
  }

  datatype Place = Queued(ssrc: nat) | Mixed | Freed

  ghost predicate NoRepeats(queue: seq<Frame>) {
    forall i, j :: 0 <= i < j < |queue| ==> queue[i].id != queue[j].id
  }

  ghost predicate Holds(queue: seq<Frame>, id: nat) {
    exists i :: 0 <= i < |queue| && queue[i].id == id
  }

  /** One queue holds exactly the payloads the books place in it, each once. */
  ghost predicate Booked(s: nat, queue: seq<Frame>, place: map<nat, Place>) {
    && NoRepeats(queue)
    && forall id: nat {:trigger Holds(queue, id)} :: Holds(queue, id) <==> id in place && place[id] == Queued(s)
  }

  /** The books agree with the queues: nothing leaked, nothing queued twice, nothing queued that was given up. */
  ghost predicate Owned(ps: Participants, place: map<nat, Place>) {
    forall s: nat :: Booked(s, Queue(ps, s), place)
  }

  /** All these frames end up in one final place. */
  function Settle(place: map<nat, Place>, frames: seq<Frame>, to: Place): map<nat, Place> {
    if frames == [] then place
    else Settle(place, frames[..|frames| - 1], to)[frames[|frames| - 1].id := to]
  }

  lemma {:induction false} Settled(place: map<nat, Place>, frames: seq<Frame>, to: Place)
    ensures var after := Settle(place, frames, to);
            && (forall id :: id in after <==> id in place || Holds(frames, id))
            && (forall id :: id in after ==> after[id] == if Holds(frames, id) then to else place[id])
  {
    if frames != [] {
      var n := |frames| - 1;
      Settled(place, frames[..n], to);
      forall id: nat
        ensures Holds(frames, id) <==> Holds(frames[..n], id) || id == frames[n].id
      {
        if Holds(frames, id) && id != frames[n].id {
          var i :| 0 <= i < |frames| && frames[i].id == id;
          assert frames[..n][i].id == id;
        } else if Holds(frames[..n], id) {
          var i :| 0 <= i < n && frames[..n][i].id == id;
          assert frames[i].id == id;
        }
      }
    }
  }

  /** No payload is forgotten, and none that was mixed or freed is ever moved again. */
  ghost predicate Advances(before: map<nat, Place>, after: map<nat, Place>) {
    forall id :: id in before ==> id in after && (before[id].Queued? || after[id] == before[id])
  }

  /** Every payload is in exactly one place: at one index of one queue if queued, in no queue otherwise. */
  lemma ExactlyOnePlace(ps: Participants, place: map<nat, Place>, id: nat)
    requires Owned(ps, place) && id in place
    ensures place[id].Queued? <==> exists s: nat :: Holds(Queue(ps, s), id)
    ensures forall s: nat, t: nat, i, j | 0 <= i < |Queue(ps, s)| && 0 <= j < |Queue(ps, t)| ::
              Queue(ps, s)[i].id == id && Queue(ps, t)[j].id == id ==> s == t && i == j
  {
    if place[id].Queued? {
      assert Booked(place[id].ssrc, Queue(ps, place[id].ssrc), place);
    }
    forall s: nat, t: nat, i, j | 0 <= i < |Queue(ps, s)| && 0 <= j < |Queue(ps, t)|
                               && Queue(ps, s)[i].id == id && Queue(ps, t)[j].id == id
      ensures s == t && i == j
    {
      assert Booked(s, Queue(ps, s), place) && Booked(t, Queue(ps, t), place);
      assert Holds(Queue(ps, s), id) && Holds(Queue(ps, t), id);
    }
  }

  lemma HoldsAfterInsert(queue: seq<Frame>, frame: Frame, at: nat)
    requires at <= |queue| && NoRepeats(queue) && !Holds(queue, frame.id)
    ensures var queue' := queue[..at] + [frame] + queue[at..];
            && NoRepeats(queue')
            && forall id :: Holds(queue', id) <==> Holds(queue, id) || id == frame.id
  {
    var queue' := queue[..at] + [frame] + queue[at..];
    assert queue'[at] == frame;
    forall id: nat | Holds(queue, id)
      ensures Holds(queue', id)
    {
      var i :| 0 <= i < |queue| && queue[i].id == id;
      assert queue'[if i < at then i else i + 1].id == id;
    }
    forall i, j | 0 <= i < j < |queue'|
      ensures queue'[i].id != queue'[j].id
    {
      assert queue'[i] == if i < at then queue[i] else if i == at then frame else queue[i - 1];
      assert queue'[j] == if j < at then queue[j] else if j == at then frame else queue[j - 1];
    }
  }

  /** Only this SSRC's queue may differ. */
  ghost predicate SameElsewhere(ps: Participants, ps': Participants, s: nat) {
    forall t: nat :: t != s ==> Queue(ps', t) == Queue(ps, t)
  }

  lemma OwnedAfterPut(ps: Participants, ps': Participants, place: map<nat, Place>, s: nat, frame: Frame, at: nat)
    requires Owned(ps, place) && SameElsewhere(ps, ps', s) && at <= |Queue(ps, s)| && frame.id !in place
    requires Queue(ps', s) == Queue(ps, s)[..at] + [frame] + Queue(ps, s)[at..]
    ensures Owned(ps', place[frame.id := Queued(s)])
  {
    assert Booked(s, Queue(ps, s), place);
    HoldsAfterInsert(Queue(ps, s), frame, at);
    forall t: nat
      ensures Booked(t, Queue(ps', t), place[frame.id := Queued(s)])
    {
      assert Booked(t, Queue(ps, t), place);
    }
  }

  /** A payload that is boxed and freed without ever being queued. */
  lemma OwnedAfterRefusal(ps: Participants, ps': Participants, place: map<nat, Place>, id: nat)
    requires Owned(ps, place) && id !in place
    requires forall s: nat :: Queue(ps', s) == Queue(ps, s)
    ensures Owned(ps', place[id := Freed])
  {
    forall s: nat
      ensures Booked(s, Queue(ps', s), place[id := Freed])
    {
      assert Booked(s, Queue(ps, s), place);
    }
  }

  lemma HoldsAfterTaking(queue: seq<Frame>, n: nat)
    requires n <= |queue| && NoRepeats(queue)
    ensures NoRepeats(queue[n..])
    ensures forall id :: Holds(queue[n..], id) <==> Holds(queue, id) && !Holds(queue[..n], id)
    ensures forall id :: Holds(queue[..n], id) ==> Holds(queue, id)
  {
    forall id: nat | Holds(queue, id) && !Holds(queue[..n], id)
      ensures Holds(queue[n..], id)
    {
      var i :| 0 <= i < |queue| && queue[i].id == id;
      forall k | 0 <= k < n
        ensures queue[k].id != id
      {
        assert queue[..n][k] == queue[k];
      }
      assert queue[n..][i - n].id == id;
    }
    forall id: nat | Holds(queue[n..], id)
      ensures Holds(queue, id)
    {
      var i :| 0 <= i < |queue[n..]| && queue[n..][i].id == id;
      assert queue[i + n].id == id;
    }
  }

  /** The oldest frames of one queue leave it for good. */
  lemma OwnedAfterTaking(ps: Participants, ps': Participants, place: map<nat, Place>, s: nat, gone: seq<Frame>, to: Place)
    requires Owned(ps, place) && SameElsewhere(ps, ps', s) && !to.Queued?
    requires Queue(ps, s) == gone + Queue(ps', s)
    ensures var place' := Settle(place, gone, to);
            Owned(ps', place') && Advances(place, place') && place'.Keys == place.Keys
  {
    var place' := Settle(place, gone, to);
    var queue, n := Queue(ps, s), |gone|;
    assert queue[..n] == gone && queue[n..] == Queue(ps', s);
    assert Booked(s, queue, place);
    Settled(place, gone, to);
    HoldsAfterTaking(queue, n);
    forall t: nat
      ensures Booked(t, Queue(ps', t), place')
    {
      assert Booked(t, Queue(ps, t), place);
    }
  }
}
