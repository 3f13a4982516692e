/**
  The wrapper around Asterisk's jitter buffer. The foreign functions `Jb...` are
  nondeterministic within what the library promises; a payload crosses into the
  buffer as a raw pointer and has to come back out or be freed.
 */
module JitterBuffers {
  import opened Prelude
  import opened Samples

  const NANOS_PER_MILLI: nat := 1_000_000

  /** A boxed payload, named by the allocation it came from. */
  datatype Frame = Frame(id: nat, data: seq<Sample>, duration: nat, ts: int)

  datatype Code = JbOk | JbEmpty | JbNoFrame | JbInterp | JbDrop | JbSched

  datatype JitterBufferErr = Empty | NoFrame | Interpolate | Drop(frame: Frame) | Scheduled

  datatype GetResult = Got(frame: Frame) | GetFailed(error: JitterBufferErr)

  datatype PutResult = PutOk | PutFailed(error: JitterBufferErr)

  predicate HandsOutFrame(code: Code) {
    code == JbOk || code == JbDrop
  }

  /** Only OK and DROP come with a frame, which becomes a box again. */
  function InterpretFrameResult(frame: Option<Frame>, code: Code): GetResult
    requires HandsOutFrame(code) ==> frame.Some?
  {
    match code
    case JbOk => Got(frame.value)
    case JbEmpty => GetFailed(Empty)
    case JbNoFrame => GetFailed(NoFrame)
    case JbInterp => GetFailed(Interpolate)
    case JbDrop => GetFailed(Drop(frame.value))
    case JbSched => GetFailed(Scheduled)
  }

  /** Every result stands for one return code. */
  function CodeOf(result: GetResult): Code {
    match result
    case Got(_) => JbOk
    case GetFailed(Empty) => JbEmpty
    case GetFailed(NoFrame) => JbNoFrame
    case GetFailed(Interpolate) => JbInterp
    case GetFailed(Drop(_)) => JbDrop
    case GetFailed(Scheduled) => JbSched
  }

  /** The frame a result hands back, if any. */
  function FrameOf(result: GetResult): Option<Frame> {
    match result
    case Got(frame) => Some(frame)
    case GetFailed(Drop(frame)) => Some(frame)
    case GetFailed(_) => None
  }

  /** One participant's turn in a fetch: the frames answered DROP for, which were freed, and the answer that ended it. */
  datatype Turn = Turn(freed: seq<Frame>, last: GetResult) {
    predicate Over() {
      last.GetFailed? ==> !last.error.Drop?
    }

    /** The frame to play, if there is one. */
    function Played(): Option<Frame> {
      if last.Got? then Some(last.frame) else None
    }

    function Answers(): seq<GetResult> {
      seq(|freed|, i requires 0 <= i < |freed| => GetFailed(Drop(freed[i]))) + [last]
    }
  }

  function One(frame: Option<Frame>): seq<Frame> {
    if frame.Some? then [frame.value] else []
  }

  /** A next-frame time of 0 means none; taking frames never makes the next one due earlier. */
  predicate NotEarlier(before: nat, after: nat) {
    after == 0 || (before != 0 && before <= after)
  }

  /** The whole milliseconds since the reference time; before it the clock reads 0. */
  function ReceiverTimestamp(reference: nat, now: nat): nat {
    if now < reference then 0 else (now - reference) / NANOS_PER_MILLI
  }

  function Instant(reference: nat, millis: nat): nat {
    reference + NANOS_PER_MILLI * millis
  }

  /** A frame's instant has come exactly when the floored clock given to the buffer has reached its time. */
  lemma DueExactly(reference: nat, millis: nat, now: nat)
    requires millis > 0
    ensures Instant(reference, millis) <= now <==> millis <= ReceiverTimestamp(reference, now)
  {
    if now >= reference {
      var q, r := (now - reference) / NANOS_PER_MILLI, (now - reference) % NANOS_PER_MILLI;
      assert now - reference == NANOS_PER_MILLI * q + r;
    }
  }

  /**
    What a buffer is made of: the instant, in nanoseconds, at which it was made, its frames, and what
    `jb_next` answers, in milliseconds after that instant, 0 if nothing is scheduled.
   */
  datatype Jitter = Jitter(reference: nat, queue: seq<Frame>, next: nat) {
    function NextFrame(): Option<nat> {
      if next == 0 then None else Some(Instant(reference, next))
    }
  }

  function Repeated<T>(t: T, n: nat): (s: seq<T>)
    ensures |s| == n && forall i :: 0 <= i < n ==> s[i] == t
  {
    seq(n, _ => t)
  }

  class JitterBuffer {
    const reference: nat
    var queue: seq<Frame>
    var next: nat
    /** What `Get` has answered so far. */
    ghost var answers: seq<GetResult>
    /** The clock and the length the library was asked with for each of them. */
    ghost var asked: seq<(nat, nat)>
    /** What the library returned for each of them. */
    ghost var codes: seq<Code>
    /** What the library was given, and the clock it was given with. */
    ghost var given: seq<(Frame, nat)>

    /** A buffer that is owned by value is borrowed for a call: its value moves in here and back out. */
    constructor Borrow(owned: Jitter)
      ensures View() == owned && answers == [] && asked == [] && codes == [] && given == []
    {
      reference, queue, next := owned.reference, owned.queue, owned.next;
      answers, asked, codes, given := [], [], [], [];
    }

    function View(): Jitter
      reads this
    {
      Jitter(reference, queue, next)
    }

    // The foreign library

    /** Keeps the frame somewhere in the queue unless it says DROP; the next time moves on SCHED only. */
    method JbPut(frame: Frame, now: nat) returns (code: Code, ghost at: nat)
      modifies `queue, `next, `given
      ensures given == old(given) + [(frame, now)]
      ensures code == JbOk || code == JbSched || code == JbDrop
      ensures at <= |old(queue)|
      ensures queue == if code == JbDrop then old(queue) else old(queue)[..at] + [frame] + old(queue)[at..]
      ensures code != JbSched ==> next == old(next)
    {
      given := given + [(frame, now)];
      var position :| 0 <= position <= |queue|;
      at := position;
      code :| code in {JbOk, JbSched, JbDrop};
      if code != JbDrop {
        queue := queue[..position] + [frame] + queue[position..];
      }
      if code == JbSched {
        var later :| 0 <= later;
        next := later;
      }
    }

    /** Takes the oldest frame for OK and DROP, and none for any other code. */
    method JbGet(now: nat, interpolation: nat) returns (code: Code, frame: Option<Frame>)
      modifies `queue, `next, `asked
      ensures asked == old(asked) + [(now, interpolation)]
      ensures HandsOutFrame(code) ==> old(queue) != [] && frame == Some(old(queue)[0]) && queue == old(queue)[1..]
      ensures !HandsOutFrame(code) ==> queue == old(queue)
      ensures NotEarlier(old(next), next)
    {
      asked := asked + [(now, interpolation)];
      code :| HandsOutFrame(code) ==> queue != [];
      frame := None;
      if HandsOutFrame(code) {
        frame, queue := Some(queue[0]), queue[1..];
      }
      var later :| 0 <= later && NotEarlier(next, later);
      next := later;
    }

    /** Takes the oldest frame whatever its time; only an empty buffer has none. */
    method JbGetAll() returns (code: Code, frame: Option<Frame>)
      modifies this
      ensures old(queue) == [] ==> code == JbNoFrame && queue == []
      ensures old(queue) != [] ==> code == JbOk && frame == Some(old(queue)[0]) && queue == old(queue)[1..]
    {
      if queue == [] {
        return JbNoFrame, None;
      }
      code, frame, queue := JbOk, Some(queue[0]), queue[1..];
      var later :| 0 <= later;
      next := later;
    }

    // The wrapper

    /** The box is in the queue afterwards, or handed back; on DROP it is rebuilt from the pointer just given away. */
    method Put(frame: Frame, now: nat) returns (result: PutResult, ghost at: nat)
      modifies `queue, `next, `given
      ensures given == old(given) + [(frame, ReceiverTimestamp(reference, now))]
      ensures result == PutOk || result == PutFailed(Scheduled) || result == PutFailed(Drop(frame))
      ensures at <= |old(queue)|
      ensures queue == if result == PutFailed(Drop(frame)) then old(queue)
                       else old(queue)[..at] + [frame] + old(queue)[at..]
      ensures result != PutFailed(Scheduled) ==> next == old(next)
    {
      var code;
      code, at := JbPut(frame, ReceiverTimestamp(reference, now));
      if code == JbOk {
        return PutOk, at;
      }
      var interpreted := InterpretFrameResult(Some(frame), code);
      return PutFailed(interpreted.error), at;
    }

    method Get(now: nat, expectedLength: nat) returns (result: GetResult)
      modifies `queue, `next, `answers, `asked, `codes
      ensures asked == old(asked) + [(ReceiverTimestamp(reference, now), expectedLength)]
      ensures codes == old(codes) + [CodeOf(result)]
      ensures match FrameOf(result)
              case None => queue == old(queue)
              case Some(frame) => old(queue) != [] && frame == old(queue)[0] && queue == old(queue)[1..]
      ensures NotEarlier(old(next), next) && answers == old(answers) + [result]
    {
      var code, frame := JbGet(ReceiverTimestamp(reference, now), expectedLength);
      result := InterpretFrameResult(frame, code);
      answers, codes := answers + [result], codes + [code];
    }

    method GetUnconditionally() returns (result: GetResult)
      modifies this
      ensures old(queue) == [] ==> result.GetFailed? && queue == []
      ensures old(queue) != [] ==> result == Got(old(queue)[0]) && queue == old(queue)[1..]
    {
      var code, frame := JbGetAll();
      return InterpretFrameResult(frame, code);
    }

    /** The destructor's loop: every payload still queued is freed, once. */
    method DropBuffer() returns (freed: seq<Frame>)
      modifies this
      ensures queue == [] && freed == old(queue)
    {
      freed := [];
      var result := GetUnconditionally();
      while result.Got?
        invariant result.Got? ==> freed + [result.frame] + queue == old(queue)
        invariant result.GetFailed? ==> freed == old(queue) && queue == []
        decreases |queue|, result.Got?
      {
        freed := freed + [result.frame];
        ghost var rest := queue;
        result := GetUnconditionally();
        assert rest != [] ==> rest == [rest[0]] + queue;
      }
    }

    /** What the mixer does with one participant: frames marked DROP are freed until something else comes. */
    method TakeFrame(now: nat, expectedLength: nat) returns (turn: Turn)
      modifies `queue, `next, `answers, `asked, `codes
      ensures asked == old(asked) + Repeated((ReceiverTimestamp(reference, now), expectedLength), |turn.freed| + 1)
      ensures old(queue) == turn.freed + One(turn.Played()) + queue
      ensures NotEarlier(old(next), next)
      ensures turn.Over() && answers == old(answers) + turn.Answers()
    {
      var freed := [];
      while true
        invariant old(queue) == freed + queue
        invariant asked == old(asked) + Repeated((ReceiverTimestamp(reference, now), expectedLength), |freed|)
        invariant answers == old(answers) + seq(|freed|, i requires 0 <= i < |freed| => GetFailed(Drop(freed[i])))
        invariant NotEarlier(old(next), next) || next == old(next)
        decreases |queue|
      {
        ghost var before := queue;
        var result := Get(now, expectedLength);
        match result {
          case Got(frame) =>
            assert before == [frame] + queue;
            return Turn(freed, result);
          case GetFailed(Drop(frame)) =>
            assert before == [frame] + queue;
            freed := freed + [frame];
          case GetFailed(_) =>
            return Turn(freed, result);
        }
      }
    }
  }
}
