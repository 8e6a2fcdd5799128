/**
 The signal relay of pkg/routing/signal.go: a sink that batches a queue under a base sequence
 number and retries, and a reader that trims repeats and refuses gaps.

 Every lock-held region of the sink is one step. Between two steps anything else may happen, and
 a frame that was handed to Send may be read zero, one or many times, at any later moment,
 whatever Send reported.
 */
module SignalRelay {

  /** One RelaySignalRequest/Response: `msgs` start at position `base` of the accepted messages. */
  datatype Frame<T> = Frame(base: nat, close: bool, msgs: seq<T>)

  /** The fields of signalMessageSink, with `open` for `Stream.Err() == nil`. */
  datatype Sink<T> = Sink(base: nat, queue: seq<T>, writing: bool, draining: bool, open: bool)

  /** Where the write goroutine stands while the lock is free. */
  datatype Writer<T> = Idle | Entering | Sending(frame: Frame<T>)

  // ---------------------------------------------------------------------------------------
  // The sink's lock-held regions as functions
  // ---------------------------------------------------------------------------------------

  function NewSink<T>(): Sink<T> { Sink(0, [], false, false, true) }

  /** The tail of write: leave the loop and close the stream if draining or failed. */
  function Exit<T>(s: Sink<T>, err: bool, closeOnFailure: bool): (Sink<T>, Writer<T>) {
    (s.(writing := false, open := s.open && !s.draining && !(err && closeOnFailure)), Idle)
  }

  /** The top of write's loop, up to the unlock before Send or the end of the goroutine. */
  function LoopTop<T>(s: Sink<T>, err: bool, closeOnFailure: bool): (Sink<T>, Writer<T>) {
    if (!s.draining && |s.queue| == 0) || !s.open then Exit(s, err, closeOnFailure)
    else (s, Sending(Frame(s.base, s.draining, s.queue)))
  }

  /** From the lock taken after Send returned to the next unlock. */
  function AfterSend<T>(s: Sink<T>, f: Frame<T>, ok: bool, pastDeadline: bool, closeOnFailure: bool)
    : (Sink<T>, Writer<T>)
    requires |f.msgs| <= |s.queue|
  {
    if !ok && pastDeadline then
      Exit(s.(base := s.base + |s.queue|, queue := []), true, closeOnFailure)
    else if !ok then
      LoopTop(s, true, closeOnFailure)
    else
      var s' := s.(base := s.base + |f.msgs|, queue := s.queue[|f.msgs|..]);
      if f.close then Exit(s', false, closeOnFailure) else LoopTop(s', false, closeOnFailure)
  }

  /** WriteMessage accepts only while the stream is open and the sink is not draining. */
  predicate Accepts<T>(s: Sink<T>) { s.open && !s.draining }

  function Enqueue<T>(s: Sink<T>, m: T): Sink<T> {
    if Accepts(s) then s.(queue := s.queue + [m], writing := true) else s
  }

  function Drain<T>(s: Sink<T>): Sink<T> { s.(draining := true, writing := true) }

  /** The sink itself. Each method is one lock-held region and returns what the goroutine does next. */
  class SignalMessageSink<T> {
    var baseSeq: nat
    var queue: seq<T>
    var writing: bool
    var draining: bool
    var open: bool
    const closeOnFailure: bool

    function State(): Sink<T>
      reads this
    {
      Sink(baseSeq, queue, writing, draining, open)
    }

    constructor (closeOnFailure: bool)
      ensures State() == NewSink() && this.closeOnFailure == closeOnFailure
    {
      this.closeOnFailure := closeOnFailure;
      baseSeq, queue, writing, draining, open := 0, [], false, false, true;
    }

    /** `spawned` tells that `go s.write()` was started. */
    method WriteMessage(m: T) returns (ok: bool, spawned: bool)
      modifies this
      ensures State() == Enqueue(old(State()), m)
      ensures ok <==> old(open) && !old(draining)
      ensures ok ==> queue == old(queue) + [m] && writing && spawned == !old(writing)
      ensures !ok ==> State() == old(State()) && !spawned
    {
      if !open || draining {
        return false, false;
      }
      queue := queue + [m];
      spawned := !writing;
      writing := true;
      ok := true;
    }

    method Close() returns (spawned: bool)
      modifies this
      ensures State() == Drain(old(State()))
      ensures draining && writing && queue == old(queue) && baseSeq == old(baseSeq) && open == old(open)
      ensures spawned == !old(writing)
    {
      draining := true;
      spawned := !writing;
      if !writing {
        writing := true;
      }
    }

    method Leave(err: bool)
      modifies this
      ensures State() == Exit(old(State()), err, closeOnFailure).0
    {
      writing := false;
      if draining {
        open := false;
      }
      if err && closeOnFailure {
        open := false;
      }
    }

    method WriteTop(err: bool) returns (next: Writer<T>)
      modifies this
      ensures (State(), next) == LoopTop(old(State()), err, closeOnFailure)
      ensures next.Idle? <==> !old(open) || (old(queue) == [] && !old(draining))
      ensures next.Sending? ==> State() == old(State()) && next.frame == Frame(baseSeq, draining, queue)
      ensures next.Idle? ==> !writing && queue == old(queue) && baseSeq == old(baseSeq) && draining == old(draining)
      ensures next.Idle? ==> (open <==> old(open) && !draining && !(err && closeOnFailure))
    {
      var close := draining;
      if (!close && |queue| == 0) || !open {
        Leave(err);
        next := Idle;
      } else {
        next := Sending(Frame(baseSeq, close, queue));
      }
    }

    method SendReturned(f: Frame<T>, ok: bool, pastDeadline: bool) returns (next: Writer<T>)
      requires |f.msgs| <= |queue|
      modifies this
      ensures (State(), next) == AfterSend(old(State()), f, ok, pastDeadline, closeOnFailure)
      ensures ok ==> baseSeq == old(baseSeq) + |f.msgs| && queue == old(queue)[|f.msgs|..]
      ensures !ok && !pastDeadline ==> baseSeq == old(baseSeq) && queue == old(queue)
      ensures !ok && pastDeadline ==> baseSeq == old(baseSeq) + |old(queue)| && queue == [] && next.Idle?
      ensures next.Sending? ==> State().writing == old(writing) && next.frame == Frame(baseSeq, draining, queue)
      ensures next.Idle? <==> || (!ok && pastDeadline) || (ok && f.close)
                              || !old(open) || (queue == [] && !old(draining))
      ensures draining == old(draining)
      ensures next.Idle? ==> !writing && (open <==> old(open) && !draining && !(!ok && closeOnFailure))
    {
      if !ok && pastDeadline {
        baseSeq := baseSeq + |queue|;
        queue := [];
        Leave(true);
        return Idle;
      }
      if ok {
        baseSeq := baseSeq + |f.msgs|;
        queue := queue[|f.msgs|..];
        if f.close {
          Leave(false);
          return Idle;
        }
      }
      next := WriteTop(!ok);
    }
  }

  // ---------------------------------------------------------------------------------------
  // The reader
  // ---------------------------------------------------------------------------------------

  /** How CopySignalStreamToMessageChannel ended, if it has. */
  datatype Status = Running | GotClose | GapRefused | ChannelFailed

  /** The reader's sequence number, what it wrote to the message channel, and whether it still runs. */
  datatype Reader<T> = Reader(base: nat, delivered: seq<T>, status: Status)

  /** What Read keeps of a frame that does not start beyond the reader. */
  function Fresh<T>(rseq: nat, f: Frame<T>): seq<T>
    requires f.base <= rseq
  {
    if rseq - f.base > |f.msgs| then [] else f.msgs[rseq - f.base..]
  }

  /** One iteration of the copy loop; the channel takes `room` messages before it fails. */
  function ReadFrame<T>(r: Reader<T>, f: Frame<T>, room: nat): Reader<T> {
    if r.status != Running then r
    else if r.base < f.base then r.(status := GapRefused)
    else
      var res := Fresh(r.base, f);
      if room < |res| then Reader(r.base + |res|, r.delivered + res[..room], ChannelFailed)
      else Reader(r.base + |res|, r.delivered + res, if f.close then GotClose else Running)
  }

  function ReadFrames<T>(r: Reader<T>, fs: seq<(Frame<T>, nat)>): Reader<T> {
    if fs == [] then r else ReadFrame(ReadFrames(r, fs[..|fs| - 1]), fs[|fs| - 1].0, fs[|fs| - 1].1)
  }

  lemma {:induction false} StoppedReaderStays<T>(r: Reader<T>, fs: seq<(Frame<T>, nat)>, k: nat)
    requires k <= |fs| && ReadFrames(r, fs[..k]).status != Running
    ensures ReadFrames(r, fs) == ReadFrames(r, fs[..k])
    decreases |fs|
  {
    if k < |fs| {
      assert fs[..|fs| - 1][..k] == fs[..k];
      StoppedReaderStays(r, fs[..|fs| - 1], k);
    } else {
      assert fs[..k] == fs;
    }
  }

  class SignalMessageReader<T> {
    var baseSeq: nat

    constructor ()
      ensures baseSeq == 0
    {
      baseSeq := 0;
    }

    /** `gap` is ErrSignalMessageDropped. */
    method Read(msg: Frame<T>) returns (gap: bool, res: seq<T>)
      modifies this
      ensures gap == (old(baseSeq) < msg.base)
      ensures gap ==> res == [] && baseSeq == old(baseSeq)
      ensures !gap ==> res == Fresh(old(baseSeq), msg) && baseSeq == old(baseSeq) + |res|
      ensures !gap ==> if old(baseSeq) > msg.base + |msg.msgs| then res == []
                       else |res| == msg.base + |msg.msgs| - old(baseSeq) && res <= msg.msgs[|msg.msgs| - |res|..]
    {
      res := msg.msgs;
      if baseSeq < msg.base {
        return true, [];
      }
      if baseSeq > msg.base {
        var n := baseSeq - msg.base;
        if n > |res| {
          n := |res|;
        }
        res := res[n..];
      }
      baseSeq := baseSeq + |res|;
      gap := false;
    }

    /** Writes messages to a channel with this much room, until one fails. */
    method WriteTo(res: seq<T>, room: nat) returns (written: seq<T>)
      ensures written == if room < |res| then res[..room] else res
    {
      written := [];
      var k := 0;
      while k < |res| && k < room
        invariant k <= |res| && k <= room && written == res[..k]
      {
        written := written + [res[k]];
        k := k + 1;
      }
      assert res[..|res|] == res;
    }

    /** CopySignalStreamToMessageChannel over the frames the stream yields, each with the room the channel has. */
    method Copy(fs: seq<(Frame<T>, nat)>) returns (delivered: seq<T>, status: Status)
      requires baseSeq == 0
      modifies this
      ensures Reader(baseSeq, delivered, status) == ReadFrames(Reader(0, [], Running), fs)
    {
      delivered, status := [], Running;
      for i := 0 to |fs|
        invariant status == Running
        invariant Reader(baseSeq, delivered, status) == ReadFrames(Reader(0, [], Running), fs[..i])
      {
        assert fs[..i + 1][..i] == fs[..i];
        var gap, res := Read(fs[i].0);
        if gap {
          status := GapRefused;
        } else {
          var written := WriteTo(res, fs[i].1);
          delivered := delivered + written;
          if |written| < |res| {
            status := ChannelFailed;
          } else if fs[i].0.close {
            status := GotClose;
          }
        }
        if status != Running {
          StoppedReaderStays(Reader(0, [], Running), fs, i + 1);
          return;
        }
      }
      assert fs[..|fs|] == fs;
    }
  }

  // ---------------------------------------------------------------------------------------
  // The relay: sink, goroutine, network and reader together
  // ---------------------------------------------------------------------------------------

  /** `accepted` are the messages WriteMessage took; `net` every frame ever handed to Send. */
  datatype Relay<T> = Relay(sink: Sink<T>, writer: Writer<T>, accepted: seq<T>, net: seq<Frame<T>>, reader: Reader<T>)

  /** Everything that can happen between two unlocked states. */
  datatype Event<T> =
    | Write(m: T)
    | CloseSink
    | WriterEnters
    | SendReturns(ok: bool, pastDeadline: bool)
    | StreamFails
    | FrameArrives(i: nat, room: nat)

  function NewRelay<T>(): Relay<T> {
    Relay(NewSink(), Idle, [], [], Reader(0, [], Running))
  }

  function Spawned<T>(before: Sink<T>, after: Sink<T>, w: Writer<T>): Writer<T> {
    if !before.writing && after.writing then Entering else w
  }

  function Resume<T>(r: Relay<T>, p: (Sink<T>, Writer<T>)): Relay<T> {
    r.(sink := p.0, writer := p.1, net := if p.1.Sending? then r.net + [p.1.frame] else r.net)
  }

  /** An event that is not possible in a state leaves it alone. */
  function Step<T>(r: Relay<T>, e: Event<T>, closeOnFailure: bool): Relay<T> {
    match e
    case Write(m) =>
      var sink := Enqueue(r.sink, m);
      r.(sink := sink,
         writer := Spawned(r.sink, sink, r.writer),
         accepted := if Accepts(r.sink) then r.accepted + [m] else r.accepted)
    case CloseSink =>
      r.(sink := Drain(r.sink), writer := Spawned(r.sink, Drain(r.sink), r.writer))
    case WriterEnters =>
      if r.writer.Entering? then Resume(r, LoopTop(r.sink, false, closeOnFailure)) else r
    case SendReturns(ok, past) =>
      if r.writer.Sending? && |r.writer.frame.msgs| <= |r.sink.queue| then
        Resume(r, AfterSend(r.sink, r.writer.frame, ok, past, closeOnFailure))
      else r
    case StreamFails => r.(sink := r.sink.(open := false))
    case FrameArrives(i, room) =>
      if i < |r.net| then r.(reader := ReadFrame(r.reader, r.net[i], room)) else r
  }

  function Run<T>(es: seq<Event<T>>, closeOnFailure: bool): Relay<T> {
    if es == [] then NewRelay() else Step(Run(es[..|es| - 1], closeOnFailure), es[|es| - 1], closeOnFailure)
  }

  /** A frame shows the accepted messages from its base on; a close frame shows them to the end. */
  ghost predicate Truthful<T>(f: Frame<T>, accepted: seq<T>, draining: bool) {
    && f.base + |f.msgs| <= |accepted|
    && f.msgs == accepted[f.base..f.base + |f.msgs|]
    && (f.close ==> draining && f.base + |f.msgs| == |accepted|)
  }

  /** The queue is exactly the accepted messages from `base` on, and the goroutine's frame is a prefix of it. */
  ghost predicate QueueInv<T>(r: Relay<T>) {
    && r.sink.base <= |r.accepted|
    && r.sink.queue == r.accepted[r.sink.base..]
    && (r.sink.writing <==> !r.writer.Idle?)
    && (r.writer.Sending? ==>
        Truthful(r.writer.frame, r.accepted, r.sink.draining) && r.writer.frame.base == r.sink.base)
    && (r.sink.open && !r.sink.writing ==> r.sink.queue == [] && !r.sink.draining)
  }

  ghost predicate NetInv<T>(r: Relay<T>) {
    forall i :: 0 <= i < |r.net| ==> Truthful(r.net[i], r.accepted, r.sink.draining)
  }

  ghost predicate SinkInv<T>(r: Relay<T>) {
    QueueInv(r) && NetInv(r)
  }

  ghost predicate ReaderInv<T>(rd: Reader<T>, accepted: seq<T>, draining: bool) {
    && rd.base <= |accepted|
    && rd.delivered <= accepted
    && (rd.status == Running ==> rd.delivered == accepted[..rd.base])
    && (rd.status == GotClose ==> draining && rd.delivered == accepted)
    && (rd.status == GapRefused ==> |rd.delivered| < |accepted|)
    && (rd.status == ChannelFailed ==> |rd.delivered| < |accepted|)
  }

  /** Accepting a message or starting to drain does not make an old frame a lie. */
  lemma StaysTruthful<T>(f: Frame<T>, s: Sink<T>, accepted: seq<T>, m: T)
    requires Truthful(f, accepted, s.draining)
    ensures Truthful(f, accepted, true)
    ensures Accepts(s) ==> Truthful(f, accepted + [m], s.draining)
  {
    assert (accepted + [m])[f.base..f.base + |f.msgs|] == accepted[f.base..f.base + |f.msgs|];
  }

  lemma LoopTopKeeps<T>(r: Relay<T>, err: bool, c: bool)
    requires r.sink.base <= |r.accepted| && r.sink.queue == r.accepted[r.sink.base..]
    requires r.sink.writing && NetInv(r)
    ensures SinkInv(Resume(r, LoopTop(r.sink, err, c)))
  {
  }

  /** The goroutine may end as soon as the queue is empty or the stream is closed. */
  lemma ExitKeeps<T>(r: Relay<T>, err: bool, c: bool)
    requires r.sink.base == |r.accepted| && r.sink.queue == [] && NetInv(r)
    ensures SinkInv(Resume(r, Exit(r.sink, err, c)))
  {
  }

  lemma AcknowledgedKeeps<T>(r: Relay<T>, c: bool)
    requires SinkInv(r) && r.writer.Sending? && |r.writer.frame.msgs| <= |r.sink.queue|
    ensures SinkInv(Resume(r, AfterSend(r.sink, r.writer.frame, true, false, c)))
  {
    var f := r.writer.frame;
    var r' := r.(sink := r.sink.(base := r.sink.base + |f.msgs|, queue := r.sink.queue[|f.msgs|..]));
    assert r'.sink.queue == r.accepted[r'.sink.base..];
    assert NetInv(r');
    if f.close {
      ExitKeeps(r', false, c);
    } else {
      LoopTopKeeps(r', false, c);
    }
  }

  lemma SendReturnsKeeps<T>(r: Relay<T>, ok: bool, past: bool, c: bool)
    requires SinkInv(r) && r.writer.Sending? && |r.writer.frame.msgs| <= |r.sink.queue|
    ensures SinkInv(Resume(r, AfterSend(r.sink, r.writer.frame, ok, past, c)))
  {
    if ok {
      AcknowledgedKeeps(r, c);
    } else if past {
      ExitKeeps(r.(sink := r.sink.(base := |r.accepted|, queue := [])), true, c);
    } else {
      LoopTopKeeps(r, true, c);
    }
  }

  lemma SinkStepKeeps<T>(r: Relay<T>, e: Event<T>, c: bool)
    requires SinkInv(r)
    ensures SinkInv(Step(r, e, c))
  {
    match e
    case Write(m) =>
      forall f: Frame<T> | Truthful(f, r.accepted, r.sink.draining)
        ensures Truthful(f, Step(r, e, c).accepted, r.sink.draining)
      {
        StaysTruthful(f, r.sink, r.accepted, m);
      }
    case CloseSink =>
    case WriterEnters =>
      if r.writer.Entering? {
        LoopTopKeeps(r, false, c);
      }
    case SendReturns(ok, past) =>
      if r.writer.Sending? && |r.writer.frame.msgs| <= |r.sink.queue| {
        SendReturnsKeeps(r, ok, past, c);
      }
    case StreamFails =>
    case FrameArrives(_, _) =>
  }

  lemma ReadFrameKeeps<T>(rd: Reader<T>, f: Frame<T>, room: nat, accepted: seq<T>, draining: bool)
    requires ReaderInv(rd, accepted, draining) && Truthful(f, accepted, draining)
    ensures ReaderInv(ReadFrame(rd, f, room), accepted, draining)
  {
    if rd.status == Running && f.base <= rd.base {
      var res := Fresh(rd.base, f);
      assert res == accepted[rd.base..rd.base + |res|];
      assert accepted[..rd.base] + res == accepted[..rd.base + |res|];
      if room < |res| {
        assert accepted[..rd.base] + res[..room] == accepted[..rd.base + room];
      }
    }
  }

  lemma ReaderStepKeeps<T>(r: Relay<T>, e: Event<T>, c: bool)
    requires SinkInv(r) && ReaderInv(r.reader, r.accepted, r.sink.draining)
    ensures var r' := Step(r, e, c); ReaderInv(r'.reader, r'.accepted, r'.sink.draining)
  {
    match e
    case FrameArrives(i, room) =>
      if i < |r.net| {
        ReadFrameKeeps(r.reader, r.net[i], room, r.accepted, r.sink.draining);
      }
    case _ =>
  }

  lemma {:induction false} RunKeepsInvariants<T>(es: seq<Event<T>>, c: bool)
    ensures var r := Run(es, c); SinkInv(r) && ReaderInv(r.reader, r.accepted, r.sink.draining)
  {
    if es != [] {
      RunKeepsInvariants(es[..|es| - 1], c);
      SinkStepKeeps(Run(es[..|es| - 1], c), es[|es| - 1], c);
      ReaderStepKeeps(Run(es[..|es| - 1], c), es[|es| - 1], c);
    }
  }

  /** In order, no repeats, no holes: over every run, also after the sink skipped a batch. */
  lemma DeliveredIsPrefixOfAccepted<T>(es: seq<Event<T>>, c: bool)
    ensures Run(es, c).reader.delivered <= Run(es, c).accepted
  {
    RunKeepsInvariants(es, c);
  }

  /** A reader that stopped on a close frame has everything; one that refused a gap really misses something. */
  lemma ReaderOutcomeIsHonest<T>(es: seq<Event<T>>, c: bool)
    ensures Run(es, c).reader.status == GotClose ==> Run(es, c).reader.delivered == Run(es, c).accepted
    ensures Run(es, c).reader.status in {GapRefused, ChannelFailed} ==>
        Run(es, c).reader.delivered != Run(es, c).accepted
  {
    RunKeepsInvariants(es, c);
  }

  /** With the lock free, an open stream and no active writer, nothing is left behind in the sink. */
  lemma NothingStranded<T>(es: seq<Event<T>>, c: bool)
    ensures var s := Run(es, c).sink;
            s.open && !s.writing ==> s.queue == [] && !s.draining && s.base == |Run(es, c).accepted|
  {
    RunKeepsInvariants(es, c);
  }

  lemma StepStaysClosed<T>(r: Relay<T>, e: Event<T>, c: bool)
    requires r.reader.status == GotClose && r.sink.draining
    ensures var r' := Step(r, e, c); r'.accepted == r.accepted && r'.reader == r.reader && r'.sink.draining
  {
  }

  /** Once the reader has stopped on a close frame, no later event changes what was accepted or delivered. */
  lemma {:induction false} CloseIsFinal<T>(es: seq<Event<T>>, more: seq<Event<T>>, c: bool)
    requires Run(es, c).reader.status == GotClose
    ensures Run(es + more, c).accepted == Run(es, c).accepted
    ensures Run(es + more, c).reader == Run(es, c).reader
    ensures Run(es + more, c).sink.draining
    decreases |more|
  {
    RunKeepsInvariants(es, c);
    if more == [] {
      assert es + more == es;
    } else {
      var init := more[..|more| - 1];
      CloseIsFinal(es, init, c);
      StepStaysClosed(Run(es + init, c), more[|more| - 1], c);
      assert (es + more)[..|es + more| - 1] == es + init;
    }
  }

  /** A close frame is being sent, the reader has no gap before it, and the channel has room for it. */
  ghost predicate ClosePending<T>(r: Relay<T>, room: nat) {
    && r.writer.Sending? && r.writer.frame.close
    && r.reader.status == Running && r.writer.frame.base <= r.reader.base
    && |r.writer.frame.msgs| <= room
    && |r.net| > 0 && r.net[|r.net| - 1] == r.writer.frame
  }

  /**
   Progress, from any reachable state in which a close frame is being sent and the reader has no gap:
   whatever happens to Send, once the frame arrives at a channel with room the reader has every message.
   */
  lemma CloseFrameCompletes<T>(es: seq<Event<T>>, room: nat, c: bool)
    requires ClosePending(Run(es, c), room)
    ensures var r' := Run(es + [FrameArrives(|Run(es, c).net| - 1, room)], c);
            r'.reader.status == GotClose && r'.reader.delivered == r'.accepted
  {
    var e := FrameArrives(|Run(es, c).net| - 1, room);
    RunThen(es, e, c);
    RunKeepsInvariants(es, c);
    CloseFrameEnds(Run(es, c), room, c);
  }

  lemma RunThen<T>(es: seq<Event<T>>, e: Event<T>, c: bool)
    ensures Run(es + [e], c) == Step(Run(es, c), e, c)
  {
    assert (es + [e])[..|es|] == es;
  }

  lemma CloseFrameEnds<T>(r: Relay<T>, room: nat, c: bool)
    requires SinkInv(r) && ReaderInv(r.reader, r.accepted, r.sink.draining) && ClosePending(r, room)
    ensures var r' := Step(r, FrameArrives(|r.net| - 1, room), c);
            r'.reader.status == GotClose && r'.reader.delivered == r'.accepted
  {
    ReadFrameKeeps(r.reader, r.writer.frame, room, r.accepted, r.sink.draining);
  }

  // ---------------------------------------------------------------------------------------
  // Draining ends
  // ---------------------------------------------------------------------------------------

  function RunFrom<T>(r: Relay<T>, es: seq<Event<T>>, c: bool): Relay<T> {
    if es == [] then r else Step(RunFrom(r, es[..|es| - 1], c), es[|es| - 1], c)
  }

  /** The reader has got what the frame holds. */
  predicate HasRead<T>(rd: Reader<T>, f: Frame<T>) {
    f.base + |f.msgs| <= rd.base && (f.close ==> rd.status == GotClose)
  }

  /**
   The stream stays up and the channel has room; a send is acknowledged only once its frame was read, and one
   that is not is retried before the deadline.
   */
  predicate Kind<T>(r: Relay<T>, e: Event<T>) {
    match e
    case StreamFails => false
    case SendReturns(ok, pastDeadline) => r.writer.Sending? ==>
        if ok then HasRead(r.reader, r.writer.frame) else !pastDeadline
    case FrameArrives(_, room) => |r.accepted| <= room
    case _ => true
  }

  ghost predicate NoFrameAhead<T>(net: seq<Frame<T>>, base: nat) { forall f :: f in net ==> f.base <= base }

  /** Draining with nothing skipped that the reader has not read; or read to the end. */
  ghost predicate Draining<T>(r: Relay<T>) {
    && SinkInv(r) && ReaderInv(r.reader, r.accepted, r.sink.draining)
    && r.sink.draining && NoFrameAhead(r.net, r.sink.base)
    && (r.reader.status == GotClose || (r.sink.open && r.reader.status == Running && r.sink.base <= r.reader.base))
  }

  /** How far the writer is from its close frame being read. */
  function Stage<T>(r: Relay<T>): nat {
    if r.reader.status == GotClose then 0
    else match r.writer
      case Sending(f) => if f.close then 1 else 3
      case _ => 2
  }

  lemma LoopTopDrains<T>(r: Relay<T>, err: bool, c: bool)
    requires r.sink.draining && r.sink.open
    ensures LoopTop(r.sink, err, c) == (r.sink, Sending(Frame(r.sink.base, true, r.sink.queue)))
  {
  }

  /** A send that returns while draining is followed by the close frame, unless that has been read. */
  lemma ReturnDrains<T>(r: Relay<T>, ok: bool, pastDeadline: bool, c: bool)
    requires Draining(r) && r.reader.status != GotClose && r.writer.Sending? && Kind(r, SendReturns(ok, pastDeadline))
    ensures var r' := Step(r, SendReturns(ok, pastDeadline), c);
            && r'.sink.open && r'.sink.draining && r.sink.base <= r'.sink.base <= r.reader.base
            && r'.writer.Sending? && r'.writer.frame.close && r'.writer.frame.base == r'.sink.base
            && r'.net == r.net + [r'.writer.frame] && r'.reader == r.reader
  {
    var s := if ok
        then r.sink.(base := r.sink.base + |r.writer.frame.msgs|, queue := r.sink.queue[|r.writer.frame.msgs|..])
        else r.sink;
    LoopTopDrains(r.(sink := s), !ok, c);
  }

  lemma EnterDrains<T>(r: Relay<T>, c: bool)
    requires Draining(r) && r.reader.status != GotClose && r.writer.Entering?
    ensures var r' := Step(r, WriterEnters, c);
            && r'.sink == r.sink && r'.reader == r.reader
            && r'.writer == Sending(Frame(r.sink.base, true, r.sink.queue)) && r'.net == r.net + [r'.writer.frame]
  {
    LoopTopDrains(r, false, c);
  }

  /** A frame that arrives leaves no gap; the close frame ends the reader. */
  lemma ArrivalDrains<T>(r: Relay<T>, i: nat, room: nat, c: bool)
    requires Draining(r) && r.reader.status != GotClose && i < |r.net| && |r.accepted| <= room
    ensures var r' := Step(r, FrameArrives(i, room), c);
            && r'.sink == r.sink && r'.writer == r.writer && r'.net == r.net
            && r'.reader.status == (if r.net[i].close then GotClose else Running) && r.reader.base <= r'.reader.base
  {
    assert r.net[i] in r.net;
    assert Truthful(r.net[i], r.accepted, r.sink.draining);
  }

  /** The writer is sending the frame that arrives, if it is sending one. */
  ghost predicate ArrivesNow<T>(r: Relay<T>, e: Event<T>) {
    e.FrameArrives? && e.i < |r.net| && (r.writer.Sending? ==> r.net[e.i] == r.writer.frame)
  }

  lemma {:induction false} FramesStayBehind<T>(net: seq<Frame<T>>, f: Frame<T>, base: nat, base': nat)
    requires NoFrameAhead(net, base) && base <= base' && f.base <= base'
    ensures NoFrameAhead(net + [f], base')
  {
  }

  lemma StepDrains<T>(r: Relay<T>, e: Event<T>, c: bool)
    requires Draining(r) && Kind(r, e) && r.reader.status != GotClose
    ensures Draining(Step(r, e, c))
    ensures Stage(Step(r, e, c)) == Stage(r) || Stage(Step(r, e, c)) <= 1
    ensures Stage(r) <= 1 ==> Stage(Step(r, e, c)) <= 1
    ensures (e.WriterEnters? && Stage(r) == 2) || (e.SendReturns? && Stage(r) == 3) ==> Stage(Step(r, e, c)) <= 1
    ensures ArrivesNow(r, e) && Stage(r) <= 1 ==> Stage(Step(r, e, c)) == 0
  {
    SinkStepKeeps(r, e, c);
    ReaderStepKeeps(r, e, c);
    match e
    case WriterEnters => {
      if r.writer.Entering? {
        EnterDrains(r, c);
        FramesStayBehind(r.net, Step(r, e, c).writer.frame, r.sink.base, r.sink.base);
      }
    }
    case SendReturns(ok, pastDeadline) => {
      if r.writer.Sending? {
        ReturnDrains(r, ok, pastDeadline, c);
        FramesStayBehind(r.net, Step(r, e, c).writer.frame, r.sink.base, Step(r, e, c).sink.base);
      }
    }
    case FrameArrives(i, room) => {
      if i < |r.net| {
        ArrivalDrains(r, i, room, c);
      }
    }
    case _ =>
  }

  lemma ReadStays<T>(r: Relay<T>, e: Event<T>, c: bool)
    requires SinkInv(r) && ReaderInv(r.reader, r.accepted, r.sink.draining) && r.reader.status == GotClose
    ensures var r' := Step(r, e, c);
            SinkInv(r') && ReaderInv(r'.reader, r'.accepted, r'.sink.draining) && r'.reader.status == GotClose
  {
    SinkStepKeeps(r, e, c);
    ReaderStepKeeps(r, e, c);
  }

  predicate AllKind<T>(r: Relay<T>, es: seq<Event<T>>, c: bool) {
    es == [] || (AllKind(r, es[..|es| - 1], c) && Kind(RunFrom(r, es[..|es| - 1], c), es[|es| - 1]))
  }

  /** Draining as above, or at the end already. */
  ghost predicate Drains<T>(r: Relay<T>) {
    if r.reader.status == GotClose then SinkInv(r) && ReaderInv(r.reader, r.accepted, r.sink.draining) else Draining(r)
  }

  lemma {:induction false} RunDrains<T>(r: Relay<T>, es: seq<Event<T>>, c: bool)
    requires Drains(r) && AllKind(r, es, c)
    ensures Drains(RunFrom(r, es, c))
    ensures Stage(RunFrom(r, es, c)) == Stage(r) || Stage(RunFrom(r, es, c)) <= 1
  {
    if es != [] {
      var before, e := RunFrom(r, es[..|es| - 1], c), es[|es| - 1];
      RunDrains(r, es[..|es| - 1], c);
      if before.reader.status == GotClose {
        ReadStays(before, e, c);
      } else {
        StepDrains(before, e, c);
      }
    }
  }

  lemma {:induction false} KindBefore<T>(r: Relay<T>, es: seq<Event<T>>, k: nat, c: bool)
    requires AllKind(r, es, c) && k < |es|
    ensures AllKind(r, es[..k], c) && Kind(RunFrom(r, es[..k], c), es[k])
    ensures RunFrom(r, es[..k + 1], c) == Step(RunFrom(r, es[..k], c), es[k], c)
    decreases |es|
  {
    assert es[..k + 1][..k] == es[..k];
    if k < |es| - 1 {
      KindBefore(r, es[..|es| - 1], k, c);
      assert es[..|es| - 1][..k] == es[..k];
    }
  }

  lemma {:induction false} LaterStage<T>(r: Relay<T>, es: seq<Event<T>>, k: nat, c: bool)
    requires Drains(r) && AllKind(r, es, c) && k <= |es| && Stage(RunFrom(r, es[..k], c)) <= 1
    ensures Stage(RunFrom(r, es, c)) <= 1
    ensures Stage(RunFrom(r, es[..k], c)) == 0 ==> Stage(RunFrom(r, es, c)) == 0
    decreases |es|
  {
    if k == |es| {
      assert es[..k] == es;
    } else {
      var init := es[..|es| - 1];
      assert init[..k] == es[..k];
      LaterStage(r, init, k, c);
      RunDrains(r, init, c);
      if RunFrom(r, init, c).reader.status != GotClose {
        StepDrains(RunFrom(r, init, c), es[|es| - 1], c);
      }
    }
  }

  /** An event that moves the writer on to its close frame. */
  lemma MovesOn<T>(r: Relay<T>, es: seq<Event<T>>, k: nat, c: bool)
    requires Drains(r) && AllKind(r, es, c) && k < |es|
    requires (es[k].WriterEnters? && Stage(r) == 2) || (es[k].SendReturns? && Stage(r) == 3)
    ensures Stage(RunFrom(r, es[..k + 1], c)) <= 1
  {
    KindBefore(r, es, k, c);
    RunDrains(r, es[..k], c);
    if RunFrom(r, es[..k], c).reader.status == GotClose {
      ReadStays(RunFrom(r, es[..k], c), es[k], c);
    } else {
      StepDrains(RunFrom(r, es[..k], c), es[k], c);
    }
  }

  /** A writer that has yet to run runs before the k-th event, and a send without the close mark returns. */
  ghost predicate MovedOnBy<T>(r: Relay<T>, es: seq<Event<T>>, k: nat)
    requires k <= |es|
  {
    && (r.writer.Entering? ==> exists i :: 0 <= i < k && es[i].WriterEnters?)
    && (r.writer.Sending? && !r.writer.frame.close ==> exists j :: 0 <= j < k && es[j].SendReturns?)
  }

  /** The writer gets on, and after that the frame then being sent arrives. */
  ghost predicate Fair<T>(r: Relay<T>, es: seq<Event<T>>, c: bool) {
    exists k :: 0 <= k < |es| && MovedOnBy(r, es, k) && ArrivesNow(RunFrom(r, es[..k], c), es[k])
  }

  lemma SendsClose<T>(r: Relay<T>, es: seq<Event<T>>, k: nat, c: bool)
    requires Draining(r) && AllKind(r, es, c) && k < |es| && MovedOnBy(r, es, k)
    ensures Stage(RunFrom(r, es[..k], c)) <= 1
  {
    KindBefore(r, es, k, c);
    if Stage(r) == 2 {
      assert !r.writer.Idle?;
      var i :| 0 <= i < k && es[i].WriterEnters?;
      MovedOnAt(r, es[..k], i, c);
    } else if Stage(r) == 3 {
      var j :| 0 <= j < k && es[j].SendReturns?;
      MovedOnAt(r, es[..k], j, c);
    } else {
      assert es[..k][..0] == [];
      LaterStage(r, es[..k], 0, c);
    }
  }

  lemma MovedOnAt<T>(r: Relay<T>, es: seq<Event<T>>, m: nat, c: bool)
    requires Drains(r) && AllKind(r, es, c) && m < |es|
    requires (es[m].WriterEnters? && Stage(r) == 2) || (es[m].SendReturns? && Stage(r) == 3)
    ensures Stage(RunFrom(r, es, c)) <= 1
  {
    MovesOn(r, es, m, c);
    LaterStage(r, es, m + 1, c);
  }

  lemma CloseArrives<T>(r: Relay<T>, es: seq<Event<T>>, k: nat, c: bool)
    requires Draining(r) && AllKind(r, es, c) && k < |es|
    requires ArrivesNow(RunFrom(r, es[..k], c), es[k]) && Stage(RunFrom(r, es[..k], c)) <= 1
    ensures Stage(RunFrom(r, es[..k + 1], c)) == 0
  {
    KindBefore(r, es, k, c);
    RunDrains(r, es[..k], c);
    if RunFrom(r, es[..k], c).reader.status == GotClose {
      ReadStays(RunFrom(r, es[..k], c), es[k], c);
    } else {
      StepDrains(RunFrom(r, es[..k], c), es[k], c);
    }
  }

  lemma StageZero<T>(r: Relay<T>)
    requires Drains(r) && Stage(r) == 0
    ensures r.reader.status == GotClose && r.reader.delivered == r.accepted
  {
  }

  lemma FairDrains<T>(r: Relay<T>, es: seq<Event<T>>, c: bool)
    requires Draining(r) && AllKind(r, es, c) && Fair(r, es, c)
    ensures var r' := RunFrom(r, es, c); r'.reader.status == GotClose && r'.reader.delivered == r'.accepted
  {
    var k :| 0 <= k < |es| && MovedOnBy(r, es, k) && ArrivesNow(RunFrom(r, es[..k], c), es[k]);
    SendsClose(r, es, k, c);
    CloseArrives(r, es, k, c);
    LaterStage(r, es, k + 1, c);
    RunDrains(r, es, c);
    StageZero(RunFrom(r, es, c));
  }

  lemma {:induction false} RunInTwo<T>(es: seq<Event<T>>, more: seq<Event<T>>, c: bool)
    ensures Run(es + more, c) == RunFrom(Run(es, c), more, c)
    decreases |more|
  {
    if more == [] {
      assert es + more == es;
    } else {
      RunInTwo(es, more[..|more| - 1], c);
      assert (es + more)[..|es + more| - 1] == es + more[..|more| - 1];
    }
  }

  lemma SinkBaseGrows<T>(r: Relay<T>, e: Event<T>, c: bool)
    requires SinkInv(r) && NoFrameAhead(r.net, r.sink.base)
    ensures NoFrameAhead(Step(r, e, c).net, Step(r, e, c).sink.base)
  {
  }

  lemma {:induction false} RunHasNoFrameAhead<T>(es: seq<Event<T>>, c: bool)
    ensures NoFrameAhead(Run(es, c).net, Run(es, c).sink.base)
  {
    if es != [] {
      RunHasNoFrameAhead(es[..|es| - 1], c);
      RunKeepsInvariants(es[..|es| - 1], c);
      SinkBaseGrows(Run(es[..|es| - 1], c), es[|es| - 1], c);
    }
  }

  // ---------------------------------------------------------------------------------------
  // What is accepted, and that it gets through
  // ---------------------------------------------------------------------------------------

  ghost predicate NeverClosed<T>(es: seq<Event<T>>) { forall e :: e in es ==> !e.CloseSink? }

  lemma StepDrainsOnClose<T>(r: Relay<T>, e: Event<T>, c: bool)
    ensures Step(r, e, c).sink.draining <==> r.sink.draining || e.CloseSink?
  {
  }

  /** The sink drains from the first Close on. */
  lemma {:induction false} DrainingIffClosed<T>(es: seq<Event<T>>, c: bool)
    ensures Run(es, c).sink.draining <==> !NeverClosed(es)
  {
    if es != [] {
      DrainingIffClosed(es[..|es| - 1], c);
      StepDrainsOnClose(Run(es[..|es| - 1], c), es[|es| - 1], c);
      assert es == es[..|es| - 1] + [es[|es| - 1]];
    }
  }

  /** The messages written while the stream was open and before the first Close, in order. */
  ghost function Written<T>(es: seq<Event<T>>, c: bool): seq<T> {
    if es == [] then []
    else
      var before, e := es[..|es| - 1], es[|es| - 1];
      Written(before, c) + if e.Write? && Run(before, c).sink.open && NeverClosed(before) then [e.m] else []
  }

  /** A write is accepted exactly if the stream is open and Close was not called; nothing else is. */
  lemma AcceptedNext<T>(es: seq<Event<T>>, e: Event<T>, c: bool)
    ensures Run(es + [e], c).accepted == Run(es, c).accepted
                + if e.Write? && Run(es, c).sink.open && NeverClosed(es) then [e.m] else []
  {
    RunThen(es, e, c);
    DrainingIffClosed(es, c);
  }

  /** Over any run exactly these messages are accepted, whether or not a writer is active. */
  lemma {:induction false} AcceptedAreWritten<T>(es: seq<Event<T>>, c: bool)
    ensures Run(es, c).accepted == Written(es, c)
  {
    if es != [] {
      AcceptedAreWritten(es[..|es| - 1], c);
      AcceptedNext(es[..|es| - 1], es[|es| - 1], c);
      assert es == es[..|es| - 1] + [es[|es| - 1]];
    }
  }

  /** What closes a stream that did not fail: Close, or a missed deadline where the sink closes on failure. */
  predicate Closes<T>(e: Event<T>, c: bool) {
    e.StreamFails? || e.CloseSink? || (c && e.SendReturns? && !e.ok && e.pastDeadline)
  }

  /** A frame without the close mark holds a message. */
  predicate SendsSome<T>(w: Writer<T>) { w.Sending? && !w.frame.close ==> w.frame.msgs != [] }

  lemma StepStaysOpen<T>(r: Relay<T>, e: Event<T>, c: bool)
    requires SinkInv(r) && r.sink.open && !r.sink.draining && SendsSome(r.writer) && !Closes(e, c)
    ensures Step(r, e, c).sink.open && SendsSome(Step(r, e, c).writer)
  {
  }

  lemma {:induction false} StaysOpen<T>(es: seq<Event<T>>, c: bool)
    requires forall e :: e in es ==> !Closes(e, c)
    ensures Run(es, c).sink.open && SendsSome(Run(es, c).writer)
  {
    if es != [] {
      var before := es[..|es| - 1];
      assert es == before + [es[|es| - 1]];
      StaysOpen(before, c);
      RunKeepsInvariants(before, c);
      DrainingIffClosed(before, c);
      StepStaysOpen(Run(before, c), es[|es| - 1], c);
    }
  }

  /** All messages written. */
  function Messages<T>(es: seq<Event<T>>): seq<T> {
    if es == [] then [] else Messages(es[..|es| - 1]) + if es[|es| - 1].Write? then [es[|es| - 1].m] else []
  }

  /** Until the stream fails or is closed, every message written is accepted. */
  lemma {:induction false} AllAreAccepted<T>(es: seq<Event<T>>, c: bool)
    requires forall e :: e in es ==> !Closes(e, c)
    ensures Run(es, c).accepted == Messages(es)
  {
    if es != [] {
      var before := es[..|es| - 1];
      assert es == before + [es[|es| - 1]];
      AllAreAccepted(before, c);
      StaysOpen(before, c);
      AcceptedNext(before, es[|es| - 1], c);
    }
  }

  /**
   A frame that arrives in any reachable state at a running reader, with room and without a gap, brings
   everything up to its end, and what was there before stays.
   */
  lemma ArrivalDelivers<T>(es: seq<Event<T>>, i: nat, room: nat, c: bool)
    requires i < |Run(es, c).net| && Run(es, c).reader.status == Running
    requires Run(es, c).net[i].base <= |Run(es, c).reader.delivered| && |Run(es, c).accepted| <= room
    ensures var r, r' := Run(es, c), Run(es + [FrameArrives(i, room)], c);
            var end := r.net[i].base + |r.net[i].msgs|;
            && end <= |r.accepted| && |r.reader.delivered| <= |r.accepted|
            && r'.reader.status == (if r.net[i].close then GotClose else Running)
            && r'.reader.delivered == r.accepted[..if end < |r.reader.delivered| then |r.reader.delivered| else end]
  {
    var e := FrameArrives(i, room);
    RunThen(es, e, c);
    RunKeepsInvariants(es, c);
    var r := Run(es, c);
    assert Truthful(r.net[i], r.accepted, r.sink.draining);
    ReadFrameKeeps(r.reader, r.net[i], room, r.accepted, r.sink.draining);
  }

  /** The reader is no further back than the sink, and has not stopped but on a close frame. */
  ghost predicate KeepsUp<T>(r: Relay<T>) {
    && SinkInv(r) && ReaderInv(r.reader, r.accepted, r.sink.draining) && NoFrameAhead(r.net, r.sink.base)
    && r.sink.base <= |r.reader.delivered| && r.reader.status in {Running, GotClose}
    && (r.sink.open || r.sink.draining) && SendsSome(r.writer)
  }

  lemma StepKeepsUp<T>(r: Relay<T>, e: Event<T>, c: bool)
    requires KeepsUp(r) && Kind(r, e)
    ensures KeepsUp(Step(r, e, c))
  {
    SinkStepKeeps(r, e, c);
    ReaderStepKeeps(r, e, c);
    SinkBaseGrows(r, e, c);
    if e.FrameArrives? && e.i < |r.net| {
      assert r.net[e.i] in r.net;
    }
  }

  lemma {:induction false} KindKeepsUp<T>(es: seq<Event<T>>, c: bool)
    requires AllKind(NewRelay(), es, c)
    ensures KeepsUp(Run(es, c))
  {
    if es != [] {
      var before := es[..|es| - 1];
      KindKeepsUp(before, c);
      RunInTwo([], before, c);
      assert [] + before == before;
      StepKeepsUp(Run(before, c), es[|es| - 1], c);
    }
  }

  /**
   Nothing is left unread: with sends acknowledged only once their frame was read, room in the channel, and no
   stream failing or deadline missed, until Close is called all messages written are accepted, and whenever no
   writer is active all of them have been delivered; however often sends fail and frames arrive again.
   */
  lemma {:induction false} QuietMeansDelivered<T>(es: seq<Event<T>>, c: bool)
    requires AllKind(NewRelay(), es, c) && NeverClosed(es)
    ensures Run(es, c).accepted == Messages(es)
    ensures Run(es, c).writer.Idle? ==> Run(es, c).reader.delivered == Messages(es)
  {
    KindKeepsUp(es, c);
    DrainingIffClosed(es, c);
    if es != [] {
      var before := es[..|es| - 1];
      assert es == before + [es[|es| - 1]];
      QuietMeansDelivered(before, c);
      KindKeepsUp(before, c);
      DrainingIffClosed(before, c);
      AcceptedNext(before, es[|es| - 1], c);
    }
  }

  /**
   Draining comes to its end: from any reachable state in which Close was called, the stream is open and the
   reader has read all that was acknowledged, every fair run without a failing stream or a missed deadline
   ends with the reader stopped on the close frame and every accepted message delivered; however often sends
   fail and are retried, and whatever old frames arrive again.
   */
  lemma DrainCompletes<T>(es: seq<Event<T>>, more: seq<Event<T>>, c: bool)
    ensures CanDrain(Run(es, c)) && AllKind(Run(es, c), more, c) && Fair(Run(es, c), more, c) ==>
              var r := Run(es + more, c); r.reader.status == GotClose && r.reader.delivered == r.accepted
  {
    if CanDrain(Run(es, c)) && AllKind(Run(es, c), more, c) && Fair(Run(es, c), more, c) {
      RunKeepsInvariants(es, c);
      RunHasNoFrameAhead(es, c);
      FairDrains(Run(es, c), more, c);
      RunInTwo(es, more, c);
    }
  }

  /** Close was called, the stream is open, and the reader runs and has read all that was acknowledged. */
  predicate CanDrain<T>(r: Relay<T>) {
    r.sink.draining && r.sink.open && r.reader.status == Running && r.sink.base <= r.reader.base
  }
}
