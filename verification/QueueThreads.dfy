/** The thread that writes to Asterisk channels on behalf of the Discord thread. */
module QueueThreads {
  import opened Samples

  datatype ChannelWriteKind = Hangup | Control(frameType: nat) | FrameWrite(frame: seq<Sample>)

  datatype ChannelWriteRequest = ChannelWriteRequest(channel: nat, write: ChannelWriteKind)

  /** What has been queued on each channel so far. */
  type Channels = map<nat, seq<ChannelWriteKind>>

  function QueuedOn(channels: Channels, c: nat): seq<ChannelWriteKind> {
    if c in channels then channels[c] else []
  }

  function Put(channels: Channels, request: ChannelWriteRequest): Channels {
    channels[request.channel := QueuedOn(channels, request.channel) + [request.write]]
  }

  /** The writes for one channel, in the order in which they were requested. */
  function WritesFor(requests: seq<ChannelWriteRequest>, c: nat): seq<ChannelWriteKind> {
    if requests == [] then []
    else WritesFor(requests[..|requests| - 1], c)
         + if requests[|requests| - 1].channel == c then [requests[|requests| - 1].write] else []
  }

  lemma {:induction false} WritesForAppend(a: seq<ChannelWriteRequest>, b: seq<ChannelWriteRequest>, c: nat)
    ensures WritesFor(a + b, c) == WritesFor(a, c) + WritesFor(b, c)
  {
    if b == [] {
      assert a + b == a;
    } else {
      var n := |b| - 1;
      assert (a + b)[..|a + b| - 1] == a + b[..n];
      WritesForAppend(a, b[..n], c);
    }
  }

  /** These requests have been carried out on top of what was queued before. */
  ghost predicate Delivered(before: Channels, after: Channels, requests: seq<ChannelWriteRequest>) {
    forall c: nat :: QueuedOn(after, c) == QueuedOn(before, c) + WritesFor(requests, c)
  }

  lemma DeliveredOneMore(start: Channels, before: Channels, done: seq<ChannelWriteRequest>, request: ChannelWriteRequest)
    requires Delivered(start, before, done)
    ensures Delivered(start, Put(before, request), done + [request])
  {
    var after := Put(before, request);
    assert (done + [request])[..|done|] == done;
    forall c: nat
      ensures QueuedOn(after, c) == QueuedOn(start, c) + WritesFor(done + [request], c)
    {
      assert QueuedOn(before, c) == QueuedOn(start, c) + WritesFor(done, c);
    }
  }

  lemma Received(all: seq<ChannelWriteRequest>, done: seq<ChannelWriteRequest>, rest: seq<ChannelWriteRequest>)
    requires all == done + rest && rest != []
    ensures all == done + [rest[0]] + rest[1..]
  {
  }

  class QueueThread {
    /** Requests not yet received. */
    var requests: seq<ChannelWriteRequest>
    var channels: Channels

    constructor ()
      ensures requests == [] && channels == map[]
    {
      requests, channels := [], map[];
    }

    /** Never blocks: the channel to the thread is unbounded. */
    method Request(channel: nat, write: ChannelWriteKind)
      modifies `requests
      ensures requests == old(requests) + [ChannelWriteRequest(channel, write)]
    {
      requests := requests + [ChannelWriteRequest(channel, write)];
    }

    /** Every request reaches its channel, once and in order, and no other channel. */
    method Run()
      modifies this
      ensures requests == [] && Delivered(old(channels), channels, old(requests))
    {
      ghost var start, all, done := channels, requests, [];
      while requests != []
        invariant all == done + requests && Delivered(start, channels, done)
        decreases |requests|
      {
        var request := requests[0];
        DeliveredOneMore(start, channels, done, request);
        Received(all, done, requests);
        done := done + [request];
        requests := requests[1..];
        channels := Put(channels, request);
      }
      assert done == all;
    }
  }
}
