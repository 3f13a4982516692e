/** What Asterisk's channels get to see of a call: its worker's issues, merged by the queue thread. */
module CallChannels {
  import opened Prelude
  import opened CallWorkers
  import opened ChannelOrder
  import opened QueueThreads
  import opened Samples

  import VoiceTask

  /** Requests are for frames, calls are for everything else. */
  predicate FramesRequested(issued: seq<Issued>) {
    forall i :: 0 <= i < |issued| ==> (issued[i].Requested? <==> issued[i].request.write.FrameWrite?)
  }

  lemma {:induction false} DueRequestsFrames(channel: nat, handled: seq<WorkerEvent>)
    ensures FramesRequested(Due(channel, handled))
  {
    if handled != [] {
      DueRequestsFrames(channel, handled[..|handled| - 1]);
    }
  }

  lemma {:induction false} OnlyRequestsFrames(issued: seq<Issued>, c: nat)
    requires FramesRequested(issued)
    ensures FramesRequested(Only(issued, c))
  {
    if issued != [] {
      OnlyRequestsFrames(issued[..|issued| - 1], c);
    }
  }

  lemma {:induction false} RequestedFrames(issued: seq<Issued>, requested: bool)
    requires FramesRequested(issued)
    ensures forall w :: w in Writes(issued, requested) ==> w.FrameWrite? == requested
  {
    if issued != [] {
      RequestedFrames(issued[..|issued| - 1], requested);
    }
  }

  lemma WorkerRequestsFrames(rx: nat, channel: nat, events: seq<WorkerEvent>, c: nat)
    ensures FramesRequested(Only(Execute(rx, channel, events).call.issued, c))
  {
    IssuedExactly(rx, channel, events);
    DueRequestsFrames(channel, Execute(rx, channel, events).handled);
    OnlyRequestsFrames(Execute(rx, channel, events).call.issued, c);
  }

  /** The frames of these writes, or the others. */
  function Pick(writes: seq<ChannelWriteKind>, frames: bool): seq<ChannelWriteKind> {
    if writes == [] then []
    else
      var last := writes[|writes| - 1];
      Also(Pick(writes[..|writes| - 1], frames), last.FrameWrite? == frames, last)
  }

  lemma {:induction false} PickUndoesMerge(merged: seq<ChannelWriteKind>, a: seq<ChannelWriteKind>, b: seq<ChannelWriteKind>)
    requires IsMerge(merged, a, b)
    requires (forall w :: w in a ==> w.FrameWrite?) && (forall w :: w in b ==> !w.FrameWrite?)
    ensures Pick(merged, true) == a && Pick(merged, false) == b
  {
    if merged != [] {
      var init, last := merged[..|merged| - 1], merged[|merged| - 1];
      if last.FrameWrite? {
        PickUndoesMerge(init, a[..|a| - 1], b);
        assert a == a[..|a| - 1] + [last];
      } else {
        PickUndoesMerge(init, a, b[..|b| - 1]);
        assert b == b[..|b| - 1] + [last];
      }
    }
  }

  /**
    Of what the call's worker has issued for a channel that nobody else writes to, every frame is on the channel or
    pending, once and in order, and every answer and hang-up is on the channel, once and in order.
   */
  lemma {:induction false} ChannelSeesTheCall(rx: nat, channel: nat, events: seq<WorkerEvent>, ticks: seq<Tick>, c: nat)
    requires IssuedFor(ticks, c) == Only(Execute(rx, channel, events).call.issued, c)
    ensures var seen, issued := QueuedOn(After(ticks).channels, c), Only(Execute(rx, channel, events).call.issued, c);
            && Pick(seen, true) + WritesFor(After(ticks).pending, c) == Writes(issued, true)
            && Pick(seen, false) == Writes(issued, false)
  {
    var issued := IssuedFor(ticks, c);
    WorkerRequestsFrames(rx, channel, events, c);
    RequestedFrames(issued, true);
    RequestedFrames(issued, false);
    ChannelSeesAMerge(ticks, c);
    var delivered :| MergedOn(After(ticks), issued, c, delivered);
    assert forall w :: w in delivered ==> w in Writes(issued, true);
    PickUndoesMerge(QueuedOn(After(ticks).channels, c), delivered, Writes(issued, false));
  }

  /** What was issued last for a channel was issued by some tick, and by none after it. */
  lemma {:induction false} IssuedBySomeTick(ticks: seq<Tick>, c: nat) returns (k: nat)
    requires IssuedFor(ticks, c) != []
    ensures k < |ticks| && IssuedFor(ticks[..k + 1], c) == IssuedFor(ticks, c)
    ensures ticks[k] == Issue(IssuedFor(ticks, c)[|IssuedFor(ticks, c)| - 1]) && ticks[k].issued.request.channel == c
  {
    k := |ticks| - 1;
    if ticks[k].Issue? && ticks[k].issued.request.channel == c {
      assert ticks[..k + 1] == ticks;
    } else {
      var init := ticks[..k];
      k := IssuedBySomeTick(init, c);
      assert init[..k + 1] == ticks[..k + 1];
    }
  }

  /** The requests pending at any time are among those issued for the channel. */
  lemma PendingFrames(ticks: seq<Tick>, k: nat, c: nat)
    requires k <= |ticks| && FramesRequested(IssuedFor(ticks, c))
    ensures forall w :: w in WritesFor(After(ticks[..k]).pending, c) ==> w.FrameWrite?
  {
    IssuedForGrows(ticks, k, c);
    var issued := IssuedFor(ticks[..k], c);
    assert forall i :: 0 <= i < |issued| ==> issued[i] == IssuedFor(ticks, c)[i];
    RequestedFrames(issued, true);
    ChannelSeesAMerge(ticks[..k], c);
    var delivered :| MergedOn(After(ticks[..k]), issued, c, delivered);
    assert forall w :: w in WritesFor(After(ticks[..k]).pending, c) ==> w in Writes(issued, true);
  }

  lemma OnlySnoc(issued: seq<Issued>, last: Issued, c: nat)
    ensures Only(issued + [last], c) == Also(Only(issued, c), last.request.channel == c, last)
  {
    assert (issued + [last])[..|issued|] == issued;
  }

  lemma LastIsHangup(seen: seq<ChannelWriteKind>, before: seq<ChannelWriteKind>, late: seq<ChannelWriteKind>)
    requires seen == before + [Hangup] + late && forall w :: w in late ==> w.FrameWrite?
    ensures seen[|seen| - 1] == Hangup <==> late == []
  {
    if late == [] {
      assert seen == before + [Hangup];
    } else {
      assert late[|late| - 1] in late && seen[|seen| - 1] == late[|late| - 1];
    }
  }

  /** Once every request for the channel has been delivered, this is what it has seen around the hang-up. */
  lemma AroundTheHangup(ticks: seq<Tick>, k: nat, c: nat)
    requires FramesRequested(IssuedFor(ticks, c)) && LastCall(ticks, k, c, Hangup)
    requires WritesFor(After(ticks).pending, c) == []
    ensures var before, seen := After(ticks[..k]), QueuedOn(After(ticks).channels, c);
            && seen == QueuedOn(before.channels, c) + [Hangup] + WritesFor(before.pending, c)
            && (seen[|seen| - 1] == Hangup <==> WritesFor(before.pending, c) == [])
  {
    LastExactly(ticks, k, c, Hangup);
    PendingFrames(ticks, k, c);
    var before := After(ticks[..k]);
    LastIsHangup(QueuedOn(After(ticks).channels, c), QueuedOn(before.channels, c), WritesFor(before.pending, c));
  }

  /**
    A call that ends on the other side hangs up its channel once. When every request for the channel has been delivered,
    the hang-up is the last the channel has seen if and only if no request for it was pending when it was made.
   */
  lemma {:induction false} HangupLastExactly(rx: nat, channel: nat, events: seq<WorkerEvent>, ticks: seq<Tick>)
    requires Execute(rx, channel, events).ended == Some(false)
    requires var run := Execute(rx, channel, events);
             var c := ChannelAfter(channel, run.handled);
             IssuedFor(ticks, c) == Only(run.call.issued, c) && WritesFor(After(ticks).pending, c) == []
    ensures var c := ChannelAfter(channel, Execute(rx, channel, events).handled);
            && (exists k: nat :: LastCall(ticks, k, c, Hangup))
            && forall k: nat :: LastCall(ticks, k, c, Hangup) ==>
                 var before, seen := After(ticks[..k]), QueuedOn(After(ticks).channels, c);
                 && seen == QueuedOn(before.channels, c) + [Hangup] + WritesFor(before.pending, c)
                 && (seen[|seen| - 1] == Hangup <==> WritesFor(before.pending, c) == [])
  {
    var run := Execute(rx, channel, events);
    var c := ChannelAfter(channel, run.handled);
    IssuedExactly(rx, channel, events);
    OnlySnoc(Due(channel, run.handled), CallHangup(c), c);
    WorkerRequestsFrames(rx, channel, events, c);
    var k := IssuedBySomeTick(ticks, c);
    assert LastCall(ticks, k, c, Hangup);
    forall k: nat | LastCall(ticks, k, c, Hangup)
      ensures var before, seen := After(ticks[..k]), QueuedOn(After(ticks).channels, c);
              && seen == QueuedOn(before.channels, c) + [Hangup] + WritesFor(before.pending, c)
              && (seen[|seen| - 1] == Hangup <==> WritesFor(before.pending, c) == [])
    {
      AroundTheHangup(ticks, k, c);
    }
  }

  lemma OneMoreTick(ticks: seq<Tick>, tick: Tick, c: nat)
    ensures After(ticks + [tick]) == Turn(After(ticks), tick)
    ensures IssuedFor(ticks + [tick], c) == IssuedOneMore(IssuedFor(ticks, c), tick, c)
  {
    assert (ticks + [tick])[..|ticks|] == ticks;
  }

  lemma ThreeTicks(s: Tick, t: Tick, u: Tick, c: nat)
    ensures After([s, t, u]) == Turn(Turn(Turn(Board([], map[]), s), t), u)
    ensures IssuedFor([s, t, u], c) == IssuedOneMore(IssuedOneMore(IssuedOneMore([], s, c), t, c), u, c)
  {
    OneMoreTick([], s, c);
    OneMoreTick([s], t, c);
    OneMoreTick([s, t], u, c);
    assert [] + [s] == [s] && [s] + [t] == [s, t] && [s, t] + [u] == [s, t, u];
  }

  lemma OneMoreEvent(rx: nat, channel: nat, events: seq<WorkerEvent>, e: WorkerEvent)
    ensures Execute(rx, channel, events + [e]) == Step(Execute(rx, channel, events), e)
  {
    assert (events + [e])[..|events|] == events;
  }

  lemma ThreeEvents(rx: nat, channel: nat, d: WorkerEvent, e: WorkerEvent, f: WorkerEvent)
    ensures Execute(rx, channel, [d, e, f]) == Step(Step(Step(Execute(rx, channel, []), d), e), f)
  {
    OneMoreEvent(rx, channel, [], d);
    OneMoreEvent(rx, channel, [d], e);
    OneMoreEvent(rx, channel, [d, e], f);
    assert [] + [d] == [d] && [d] + [e] == [d, e] && [d, e] + [f] == [d, e, f];
  }

  /** A frame is requested, something is called directly, and the frame is delivered. */
  lemma CallOvertakesFrame(c: nat, frame: seq<Sample>, w: ChannelWriteKind)
    ensures var ticks := [Issue(AskFrame(c, frame)), Issue(Called(ChannelWriteRequest(c, w))), Deliver];
            && IssuedFor(ticks, c) == [AskFrame(c, frame), Called(ChannelWriteRequest(c, w))]
            && After(ticks).pending == [] && QueuedOn(After(ticks).channels, c) == [w, FrameWrite(frame)]
  {
    ThreeTicks(Issue(AskFrame(c, frame)), Issue(Called(ChannelWriteRequest(c, w))), Deliver, c);
  }

  /** A frame is mixed and the other side is gone: the frame comes out of the queue thread after the hang-up. */
  lemma FrameAfterHangup()
    ensures var events := [MixedPacket([], true), ClientRequest(0, JoinChannel), NoMoreEvents];
            var ticks := [Issue(AskFrame(7, [])), Issue(CallHangup(7)), Deliver];
            && Execute(0, 7, events).ended == Some(false)
            && IssuedFor(ticks, 7) == Execute(0, 7, events).call.issued == [AskFrame(7, []), CallHangup(7)]
            && After(ticks).pending == [] && QueuedOn(After(ticks).channels, 7) == [Hangup, FrameWrite([])]
  {
    ThreeEvents(0, 7, MixedPacket([], true), ClientRequest(0, JoinChannel), NoMoreEvents);
    CallOvertakesFrame(7, [], Hangup);
  }

  /** The same frame comes after an answer that was given later. */
  lemma FrameAfterAnswer()
    ensures var events := [ClientRequest(0, JoinChannel), MixedPacket([], true), CallEvent(VoiceTask.FullyConnected)];
            var ticks := [Issue(AskFrame(7, [])), Issue(CallAnswer(7)), Deliver];
            && IssuedFor(ticks, 7) == Execute(0, 7, events).call.issued == [AskFrame(7, []), CallAnswer(7)]
            && QueuedOn(After(ticks).channels, 7) == [Control(4), FrameWrite([])]
  {
    ThreeEvents(0, 7, ClientRequest(0, JoinChannel), MixedPacket([], true), CallEvent(VoiceTask.FullyConnected));
    CallOvertakesFrame(7, [], Control(AST_CONTROL_ANSWER));
  }
}
