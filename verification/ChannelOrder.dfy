/**
  What an Asterisk channel gets to see of what is issued for it: requests reach it through the queue thread, later,
  while direct calls reach it at once. The two are each in order, but merged as the threads happen to run.
 */
module ChannelOrder {
  import opened QueueThreads

  datatype Issued = Requested(request: ChannelWriteRequest) | Called(request: ChannelWriteRequest)

  /** What has been requested of the queue thread and not been carried out, and what the channels have had. */
  datatype Board = Board(pending: seq<ChannelWriteRequest>, channels: Channels)

  /** Somebody issues a write, or the queue thread carries out the oldest request. */
  datatype Tick = Issue(issued: Issued) | Deliver

  function Turn(b: Board, tick: Tick): Board {
    match tick
    case Issue(Requested(request)) => b.(pending := b.pending + [request])
    case Issue(Called(request)) => b.(channels := Put(b.channels, request))
    case Deliver => if b.pending == [] then b else Board(b.pending[1..], Put(b.channels, b.pending[0]))
  }

  function After(ticks: seq<Tick>): Board {
    if ticks == [] then Board([], map[]) else Turn(After(ticks[..|ticks| - 1]), ticks[|ticks| - 1])
  }

  function Also<T>(s: seq<T>, here: bool, t: T): seq<T> {
    if here then s + [t] else s
  }

  /** What has been issued for a channel, requested or called. */
  function Only(issued: seq<Issued>, c: nat): seq<Issued> {
    if issued == [] then []
    else
      var last := issued[|issued| - 1];
      Also(Only(issued[..|issued| - 1], c), last.request.channel == c, last)
  }

  function IssuedOneMore(before: seq<Issued>, tick: Tick, c: nat): seq<Issued> {
    if tick.Issue? then Also(before, tick.issued.request.channel == c, tick.issued) else before
  }

  function IssuedFor(ticks: seq<Tick>, c: nat): seq<Issued> {
    if ticks == [] then [] else IssuedOneMore(IssuedFor(ticks[..|ticks| - 1], c), ticks[|ticks| - 1], c)
  }

  /** The writes that were requested, or those that were called directly. */
  function Writes(issued: seq<Issued>, requested: bool): seq<ChannelWriteKind> {
    if issued == [] then []
    else
      var last := issued[|issued| - 1];
      Also(Writes(issued[..|issued| - 1], requested), last.Requested? == requested, last.request.write)
  }

  /** One sequence shuffled into another, each in its own order. */
  predicate IsMerge(merged: seq<ChannelWriteKind>, a: seq<ChannelWriteKind>, b: seq<ChannelWriteKind>) {
    if merged == [] then a == [] && b == []
    else
      var init, last := merged[..|merged| - 1], merged[|merged| - 1];
      || (a != [] && a[|a| - 1] == last && IsMerge(init, a[..|a| - 1], b))
      || (b != [] && b[|b| - 1] == last && IsMerge(init, a, b[..|b| - 1]))
  }

  lemma MergeOneMore(merged: seq<ChannelWriteKind>, a: seq<ChannelWriteKind>, b: seq<ChannelWriteKind>, w: ChannelWriteKind)
    requires IsMerge(merged, a, b)
    ensures IsMerge(merged + [w], a + [w], b) && IsMerge(merged + [w], a, b + [w])
  {
    assert (merged + [w])[..|merged|] == merged && (a + [w])[..|a|] == a && (b + [w])[..|b|] == b;
  }

  lemma WritesForFirst(pending: seq<ChannelWriteRequest>, c: nat)
    requires pending != []
    ensures var rest := WritesFor(pending[1..], c);
            WritesFor(pending, c) == if pending[0].channel == c then [pending[0].write] + rest else rest
  {
    assert pending == [pending[0]] + pending[1..];
    WritesForAppend([pending[0]], pending[1..], c);
    assert [pending[0]][..0] == [];
  }

  lemma WritesForSnoc(pending: seq<ChannelWriteRequest>, request: ChannelWriteRequest, c: nat)
    ensures WritesFor(pending + [request], c) == Also(WritesFor(pending, c), request.channel == c, request.write)
  {
    assert (pending + [request])[..|pending|] == pending;
  }

  lemma PutSees(channels: Channels, request: ChannelWriteRequest, c: nat)
    ensures QueuedOn(Put(channels, request), c) == Also(QueuedOn(channels, c), request.channel == c, request.write)
  {
  }

  lemma WritesSnoc(issued: seq<Issued>, last: Issued, requested: bool)
    ensures Writes(issued + [last], requested) ==
            Also(Writes(issued, requested), last.Requested? == requested, last.request.write)
  {
    assert (issued + [last])[..|issued|] == issued;
  }

  /** Does the next delivery hand something to this channel? */
  predicate Hands(b: Board, c: nat) {
    b.pending != [] && b.pending[0].channel == c
  }

  lemma DeliverMoves(b: Board, c: nat)
    ensures var b' := Turn(b, Deliver);
            if Hands(b, c) then
              && QueuedOn(b'.channels, c) == QueuedOn(b.channels, c) + [b.pending[0].write]
              && WritesFor(b.pending, c) == [b.pending[0].write] + WritesFor(b'.pending, c)
            else QueuedOn(b'.channels, c) == QueuedOn(b.channels, c) && WritesFor(b'.pending, c) == WritesFor(b.pending, c)
  {
    if b.pending != [] {
      PutSees(b.channels, b.pending[0], c);
      WritesForFirst(b.pending, c);
    }
  }

  lemma IssueMoves(b: Board, issued: Issued, c: nat)
    ensures var b', write, here := Turn(b, Issue(issued)), issued.request.write, issued.request.channel == c;
            && QueuedOn(b'.channels, c) == Also(QueuedOn(b.channels, c), here && issued.Called?, write)
            && WritesFor(b'.pending, c) == Also(WritesFor(b.pending, c), here && issued.Requested?, write)
  {
    PutSees(b.channels, issued.request, c);
    WritesForSnoc(b.pending, issued.request, c);
  }

  /** What a channel has had is these requests and these calls, each in order; the rest of the requests is pending. */
  ghost predicate Merged(seen: seq<ChannelWriteKind>, pending: seq<ChannelWriteKind>, issued: seq<Issued>,
                         delivered: seq<ChannelWriteKind>)
  {
    IsMerge(seen, delivered, Writes(issued, false)) && Writes(issued, true) == delivered + pending
  }

  ghost predicate MergedOn(b: Board, issued: seq<Issued>, c: nat, delivered: seq<ChannelWriteKind>) {
    Merged(QueuedOn(b.channels, c), WritesFor(b.pending, c), issued, delivered)
  }

  lemma MergedIssue(seen: seq<ChannelWriteKind>, pending: seq<ChannelWriteKind>, issued: seq<Issued>,
                    delivered: seq<ChannelWriteKind>, more: Issued)
    requires Merged(seen, pending, issued, delivered)
    ensures more.Called? ==> Merged(seen + [more.request.write], pending, issued + [more], delivered)
    ensures more.Requested? ==> Merged(seen, pending + [more.request.write], issued + [more], delivered)
  {
    WritesSnoc(issued, more, true);
    WritesSnoc(issued, more, false);
    if more.Called? {
      MergeOneMore(seen, delivered, Writes(issued, false), more.request.write);
    }
  }

  lemma IssueKeepsMerged(b: Board, issued: seq<Issued>, c: nat, delivered: seq<ChannelWriteKind>, more: Issued)
    requires MergedOn(b, issued, c, delivered)
    ensures MergedOn(Turn(b, Issue(more)), IssuedOneMore(issued, Issue(more), c), c, delivered)
  {
    IssueMoves(b, more, c);
    if more.request.channel == c {
      MergedIssue(QueuedOn(b.channels, c), WritesFor(b.pending, c), issued, delivered, more);
    }
  }

  lemma DeliverKeepsMerged(b: Board, issued: seq<Issued>, c: nat, delivered: seq<ChannelWriteKind>)
    requires MergedOn(b, issued, c, delivered)
    ensures if Hands(b, c) then MergedOn(Turn(b, Deliver), issued, c, delivered + [b.pending[0].write])
            else MergedOn(Turn(b, Deliver), issued, c, delivered)
  {
    DeliverMoves(b, c);
    if Hands(b, c) {
      MergeOneMore(QueuedOn(b.channels, c), delivered, Writes(issued, false), b.pending[0].write);
    }
  }

  /**
    Whoever issues what and however slow the queue thread is: a channel has had the direct calls, all and in order, and
    the first so many of the requests, in order, in some shuffle; the other requests are pending.
   */
  lemma {:induction false} ChannelSeesAMerge(ticks: seq<Tick>, c: nat)
    ensures exists delivered :: MergedOn(After(ticks), IssuedFor(ticks, c), c, delivered)
  {
    if ticks == [] {
      assert MergedOn(After(ticks), IssuedFor(ticks, c), c, []);
    } else {
      var n := |ticks| - 1;
      ChannelSeesAMerge(ticks[..n], c);
      var b, issued := After(ticks[..n]), IssuedFor(ticks[..n], c);
      var delivered :| MergedOn(b, issued, c, delivered);
      assert After(ticks) == Turn(b, ticks[n]) && IssuedFor(ticks, c) == IssuedOneMore(issued, ticks[n], c);
      if ticks[n].Issue? {
        IssueKeepsMerged(b, issued, c, delivered, ticks[n].issued);
      } else {
        DeliverKeepsMerged(b, issued, c, delivered);
      }
    }
  }

  // What comes after a direct call

  /** What a channel has had and will have, if nothing more is issued for it. */
  function Promised(b: Board, c: nat): seq<ChannelWriteKind> {
    QueuedOn(b.channels, c) + WritesFor(b.pending, c)
  }

  lemma PromiseKept(b: Board, c: nat)
    requires WritesFor(b.pending, c) == []
    ensures Promised(b, c) == QueuedOn(b.channels, c)
  {
  }

  lemma TurnKeepsPromise(b: Board, tick: Tick, c: nat)
    requires tick.Issue? ==> tick.issued.request.channel != c
    ensures Promised(Turn(b, tick), c) == Promised(b, c)
    ensures QueuedOn(b.channels, c) <= QueuedOn(Turn(b, tick).channels, c)
  {
    if tick.Issue? {
      IssueMoves(b, tick.issued, c);
    } else {
      DeliverMoves(b, c);
    }
  }

  lemma IssuedForSplit(ticks: seq<Tick>, k: nat, c: nat)
    requires k < |ticks|
    ensures IssuedFor(ticks[..k + 1], c) == IssuedOneMore(IssuedFor(ticks[..k], c), ticks[k], c)
    ensures After(ticks[..k + 1]) == Turn(After(ticks[..k]), ticks[k])
  {
    assert ticks[..k + 1][..k] == ticks[..k];
  }

  /** The history of what was issued for a channel only grows. */
  lemma {:induction false} IssuedForGrows(ticks: seq<Tick>, k: nat, c: nat)
    requires k <= |ticks|
    ensures IssuedFor(ticks[..k], c) <= IssuedFor(ticks, c)
    decreases |ticks| - k
  {
    if k == |ticks| {
      assert ticks[..k] == ticks;
    } else {
      IssuedForSplit(ticks, k, c);
      IssuedForGrows(ticks, k + 1, c);
    }
  }

  /** While nothing is issued for a channel its promise stands. */
  lemma {:induction false} PromiseStands(ticks: seq<Tick>, k: nat, c: nat)
    requires k <= |ticks| && IssuedFor(ticks[..k], c) == IssuedFor(ticks, c)
    ensures Promised(After(ticks), c) == Promised(After(ticks[..k]), c)
    ensures QueuedOn(After(ticks[..k]).channels, c) <= QueuedOn(After(ticks).channels, c)
    decreases |ticks| - k
  {
    if k == |ticks| {
      assert ticks[..k] == ticks;
    } else {
      IssuedForSplit(ticks, k, c);
      IssuedForGrows(ticks, k + 1, c);
      TurnKeepsPromise(After(ticks[..k]), ticks[k], c);
      PromiseStands(ticks, k + 1, c);
    }
  }

  /** A direct call is made, and nothing is issued for its channel any more. */
  predicate LastCall(ticks: seq<Tick>, k: nat, c: nat, w: ChannelWriteKind) {
    && k < |ticks| && ticks[k] == Issue(Called(ChannelWriteRequest(c, w)))
    && IssuedFor(ticks[..k + 1], c) == IssuedFor(ticks, c)
  }

  /** After a direct call that nothing is issued after, the channel gets exactly the requests pending at the call. */
  lemma {:induction false} AfterLastCall(ticks: seq<Tick>, k: nat, c: nat, w: ChannelWriteKind)
    requires LastCall(ticks, k, c, w)
    ensures var before := After(ticks[..k]);
            && Promised(After(ticks), c) == QueuedOn(before.channels, c) + [w] + WritesFor(before.pending, c)
            && QueuedOn(before.channels, c) + [w] <= QueuedOn(After(ticks).channels, c)
  {
    IssuedForSplit(ticks, k, c);
    IssueMoves(After(ticks[..k]), ticks[k].issued, c);
    PromiseStands(ticks, k + 1, c);
  }

  /** Once they are delivered, the call is the last the channel sees if and only if there were none. */
  lemma LastExactly(ticks: seq<Tick>, k: nat, c: nat, w: ChannelWriteKind)
    requires LastCall(ticks, k, c, w) && WritesFor(After(ticks).pending, c) == []
    ensures var before, seen := After(ticks[..k]), QueuedOn(After(ticks).channels, c);
            && seen == QueuedOn(before.channels, c) + [w] + WritesFor(before.pending, c)
            && (seen == QueuedOn(before.channels, c) + [w] <==> WritesFor(before.pending, c) == [])
  {
    AfterLastCall(ticks, k, c, w);
    PromiseKept(After(ticks), c);
  }

  // The queue thread's loop is so many deliveries

  function Deliveries(b: Board, n: nat): Board {
    if n == 0 then b else Turn(Deliveries(b, n - 1), Deliver)
  }

  lemma {:induction false} DeliveriesTake(b: Board, n: nat)
    requires n <= |b.pending|
    ensures Deliveries(b, n).pending == b.pending[n..]
  {
    if n > 0 {
      DeliveriesTake(b, n - 1);
    }
  }

  lemma TakenOneMore(pending: seq<ChannelWriteRequest>, n: nat)
    requires 0 < n <= |pending|
    ensures pending[..n - 1] + [pending[n - 1..][0]] == pending[..n]
  {
  }

  lemma DeliverOnce(start: Channels, before: Board, done: seq<ChannelWriteRequest>)
    requires Delivered(start, before.channels, done) && before.pending != []
    ensures Delivered(start, Turn(before, Deliver).channels, done + [before.pending[0]])
  {
    DeliveredOneMore(start, before.channels, done, before.pending[0]);
  }

  /** As many deliveries as there are requests do what the queue thread's loop promises. */
  lemma {:induction false} DeliveriesAreTheLoop(b: Board, n: nat)
    requires n <= |b.pending|
    ensures Delivered(b.channels, Deliveries(b, n).channels, b.pending[..n])
  {
    if n > 0 {
      DeliveriesAreTheLoop(b, n - 1);
      DeliveriesTake(b, n - 1);
      DeliverOnce(b.channels, Deliveries(b, n - 1), b.pending[..n - 1]);
      TakenOneMore(b.pending, n);
    }
  }
}
