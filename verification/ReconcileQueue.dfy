/**
 The wake-up queue of the subscription manager (pkg/rtc/subscriptionmanager.go): queueReconcile with
 its bounded channel and overflow flag, and the worker that takes items and swaps the flag.

 queueReconcile holds no lock, so finding the channel full and storing the flag are two steps here.
 */
module ReconcileQueue {

  type TrackID = string

  /** The worker's position: waiting in select, holding an item, before the swap, or after a swap that saw the flag. */
  datatype Worker = Idle | Took(t: TrackID) | BeforeSwap | Sweeping

  /** A producer that found the channel full and has not stored the flag yet. */
  datatype Storing = Storing(t: TrackID, takenAtRequest: nat)

  /**
   `unserved` are the tracks with a queueReconcile not yet followed by a reconcile of that track or of
   all tracks, `taken` the number of items taken so far.
   */
  datatype Queue = Queue(
    channel: seq<TrackID>,
    overflow: bool,
    worker: Worker,
    storing: seq<Storing>,
    unserved: set<TrackID>,
    taken: nat)

  /** `known` tells whether the item's track has a subscription; if not, everything is reconciled. */
  datatype Event =
    | Request(t: TrackID)
    | Store(i: nat)
    | Take
    | Reconcile(known: bool)
    | Swap
    | Sweep
    | Tick

  function NewQueue(): Queue { Queue([], false, Idle, [], {}, 0) }

  function Step(q: Queue, e: Event, cap: nat): Queue {
    match e
    case Request(t) =>
      var q' := q.(unserved := q.unserved + {t});
      if |q.channel| < cap then q'.(channel := q.channel + [t])
      else q'.(storing := q.storing + [Storing(t, q.taken)])
    case Store(i) =>
      if i < |q.storing| then q.(storing := q.storing[..i] + q.storing[i + 1..], overflow := true) else q
    case Take =>
      if q.worker == Idle && q.channel != [] then
        q.(channel := q.channel[1..], worker := Took(q.channel[0]), taken := q.taken + 1)
      else q
    case Reconcile(known) =>
      if q.worker.Took? then
        q.(worker := BeforeSwap, unserved := if known then q.unserved - {q.worker.t} else {})
      else q
    case Swap =>
      if q.worker == BeforeSwap then q.(overflow := false, worker := if q.overflow then Sweeping else Idle) else q
    case Sweep =>
      if q.worker == Sweeping then q.(worker := Idle, unserved := {}) else q
    case Tick =>
      if q.worker == Idle then q.(unserved := {}) else q
  }

  function Run(es: seq<Event>, cap: nat): Queue {
    if es == [] then NewQueue() else Step(Run(es[..|es| - 1], cap), es[|es| - 1], cap)
  }

  /** The shared part: the channel and the flag. */
  class WakeUps {
    const cap: nat
    var channel: seq<TrackID>
    var overflow: bool

    constructor (cap: nat)
      ensures channel == [] && !overflow && this.cap == cap
    {
      this.cap := cap;
      channel, overflow := [], false;
    }

    /** The select of queueReconcile; a caller that finds the channel full goes on to StoreOverflow. */
    method TrySend(t: TrackID) returns (full: bool)
      modifies `channel
      ensures forall q: Queue :: q.channel == old(channel) && q.overflow == overflow ==>
                var q' := Step(q, Request(t), cap);
                q'.channel == channel && q'.overflow == overflow && (full <==> |q'.storing| > |q.storing|)
      ensures full == (|old(channel)| >= cap)
      ensures channel == if full then old(channel) else old(channel) + [t]
    {
      full := |channel| >= cap;
      if !full {
        channel := channel + [t];
      }
    }

    method StoreOverflow()
      modifies `overflow
      ensures forall q: Queue, i :: q.channel == channel && 0 <= i < |q.storing| ==>
                Step(q, Store(i), cap).channel == channel && Step(q, Store(i), cap).overflow == overflow
      ensures overflow
    {
      overflow := true;
    }

    method Receive() returns (t: TrackID)
      requires channel != []
      modifies `channel
      ensures forall q: Queue :: q.channel == old(channel) && q.worker == Idle ==>
                Step(q, Take, cap).channel == channel && Step(q, Take, cap).worker == Took(t)
      ensures [t] + channel == old(channel)
    {
      t := channel[0];
      channel := channel[1..];
    }

    method SwapOverflow() returns (was: bool)
      modifies `overflow
      ensures forall q: Queue :: q.overflow == old(overflow) && q.worker == BeforeSwap ==>
                Step(q, Swap, cap).overflow == overflow && (was <==> Step(q, Swap, cap).worker == Sweeping)
      ensures !overflow && was == old(overflow)
    {
      was := overflow;
      overflow := false;
    }
  }

  // ---------------------------------------------------------------------------------------
  // No wake-up is lost
  // ---------------------------------------------------------------------------------------

  /** The event reconciles the track: it alone, or with all the others. */
  predicate Serves(q: Queue, e: Event, t: TrackID) {
    || (e.Reconcile? && q.worker.Took? && (q.worker.t == t || !e.known))
    || (e.Sweep? && q.worker == Sweeping) || (e.Tick? && q.worker == Idle)
  }

  /** The k-th event requested the track, and none since has reconciled it. */
  ghost predicate Unanswered(es: seq<Event>, k: int, t: TrackID, cap: nat) {
    0 <= k < |es| && es[k] == Request(t) && forall j :: k < j < |es| ==> !Serves(Run(es[..j], cap), es[j], t)
  }

  lemma StepServes(q: Queue, e: Event, t: TrackID, cap: nat)
    ensures t in Step(q, e, cap).unserved <==> e == Request(t) || (t in q.unserved && !Serves(q, e, t))
  {
  }

  lemma UnansweredNext(es: seq<Event>, e: Event, k: int, t: TrackID, cap: nat)
    requires 0 <= k < |es|
    ensures Unanswered(es + [e], k, t, cap) <==> Unanswered(es, k, t, cap) && !Serves(Run(es, cap), e, t)
  {
    var all := es + [e];
    assert all[..|es|] == es && all[|es|] == e;
    assert forall j :: 0 <= j < |es| ==> all[j] == es[j] && all[..j] == es[..j];
  }

  /** What is not served in a run is what has been requested and not been reconciled since. */
  lemma {:induction false} UnservedIsUnanswered(es: seq<Event>, t: TrackID, cap: nat)
    ensures t in Run(es, cap).unserved <==> exists k :: Unanswered(es, k, t, cap)
  {
    if es != [] {
      var before, e := es[..|es| - 1], es[|es| - 1];
      UnservedIsUnanswered(before, t, cap);
      StepServes(Run(before, cap), e, t, cap);
      assert es == before + [e];
      forall k | 0 <= k < |before|
        ensures Unanswered(es, k, t, cap) <==> Unanswered(before, k, t, cap) && !Serves(Run(before, cap), e, t)
      {
        UnansweredNext(before, e, k, t, cap);
      }
      if e == Request(t) {
        assert Unanswered(es, |before|, t, cap);
      }
    }
  }

  /** Something is still on its way to reconcile this track. */
  ghost predicate Covered(q: Queue, t: TrackID) {
    || t in q.channel || q.worker == Took(t) || q.worker == Sweeping || q.overflow
    || exists i :: 0 <= i < |q.storing| && q.storing[i].t == t
  }

  ghost predicate AllCovered(q: Queue) { forall t :: t in q.unserved ==> Covered(q, t) }

  /** A producer about to store saw a full channel; since then every item gone was taken. */
  ghost predicate StoringInv(q: Queue, cap: nat) {
    forall i :: 0 <= i < |q.storing| ==> q.storing[i].takenAtRequest + cap <= q.taken + |q.channel|
  }

  lemma StepKeepsCovered(q: Queue, e: Event, cap: nat)
    requires AllCovered(q)
    ensures AllCovered(Step(q, e, cap))
  {
    var q' := Step(q, e, cap);
    forall t | t in q'.unserved
      ensures Covered(q', t)
    {
      match e
      case Request(u) =>
        if t == u {
          assert |q'.storing| > |q.storing| ==> q'.storing[|q.storing|].t == t;
        } else if exists i :: 0 <= i < |q.storing| && q.storing[i].t == t {
          var i :| 0 <= i < |q.storing| && q.storing[i].t == t;
          assert q'.storing[i].t == t;
        }
      case Take =>
        if q' != q {
          assert q.channel == [q.channel[0]] + q'.channel;
        }
      case _ =>
    }
  }

  lemma {:induction false} RunKeeps(es: seq<Event>, cap: nat)
    ensures AllCovered(Run(es, cap)) && StoringInv(Run(es, cap), cap)
  {
    if es != [] {
      RunKeeps(es[..|es| - 1], cap);
      StepKeepsCovered(Run(es[..|es| - 1], cap), es[|es| - 1], cap);
    }
  }

  /**
   Whenever the worker waits on an empty channel, the flag is clear and no producer is mid-call, every
   request has been followed by a reconcile of its track.
   */
  lemma QuietMeansServed(es: seq<Event>, cap: nat)
    requires var q := Run(es, cap); q.channel == [] && q.worker == Idle && !q.overflow && q.storing == []
    ensures Run(es, cap).unserved == {} && forall k, t :: !Unanswered(es, k, t, cap)
  {
    RunKeeps(es, cap);
    forall k, t
      ensures !Unanswered(es, k, t, cap)
    {
      UnservedIsUnanswered(es, t, cap);
    }
  }

  /** The flag is never left alone: an item or the worker's own swap is still to come. */
  ghost predicate FlagWillBeSeen(q: Queue) {
    q.overflow ==> q.channel != [] || q.worker.Took? || q.worker == BeforeSwap
  }

  /** A flag stored although nothing is left to make the worker look at it. */
  predicate LateStore(q: Queue, e: Event) {
    e.Store? && e.i < |q.storing| && q.channel == [] && (q.worker == Idle || q.worker == Sweeping)
  }

  /** No event of the run is a late store. */
  predicate NoLateStore(es: seq<Event>, cap: nat) {
    es == [] || (NoLateStore(es[..|es| - 1], cap) && !LateStore(Run(es[..|es| - 1], cap), es[|es| - 1]))
  }

  /** The flag will be seen in every state of the run. */
  ghost predicate AlwaysSeen(es: seq<Event>, cap: nat) {
    FlagWillBeSeen(Run(es, cap)) && (es == [] || AlwaysSeen(es[..|es| - 1], cap))
  }

  /** The flag will be seen in every state of a run exactly when no producer stores it late. */
  lemma {:induction false} FlagSeenIffNoLateStore(es: seq<Event>, cap: nat)
    ensures AlwaysSeen(es, cap) <==> NoLateStore(es, cap)
  {
    if es != [] {
      FlagSeenIffNoLateStore(es[..|es| - 1], cap);
    }
  }

  /** A late store needs a whole channel of items taken between the producer's check and its store. */
  lemma LateStoreIsAChannelLate(es: seq<Event>, i: nat, cap: nat)
    requires LateStore(Run(es, cap), Store(i))
    ensures Run(es, cap).taken - Run(es, cap).storing[i].takenAtRequest >= cap
  {
    RunKeeps(es, cap);
  }

  // ---------------------------------------------------------------------------------------
  // Left to itself, the worker serves everything
  // ---------------------------------------------------------------------------------------

  predicate Quiet(q: Queue) { q.channel == [] && q.worker == Idle }

  function WorkerEvent(q: Queue, known: bool): Event {
    match q.worker
    case Idle => Take
    case Took(_) => Reconcile(known)
    case BeforeSwap => Swap
    case Sweeping => Sweep
  }

  function WorkLeft(q: Queue): nat {
    4 * |q.channel| + match q.worker case Idle => 0 case Took(_) => 3 case BeforeSwap => 2 case Sweeping => 1
  }

  function Work(q: Queue, known: TrackID -> bool, cap: nat): Queue
    decreases WorkLeft(q)
  {
    if Quiet(q) then q
    else Work(Step(q, WorkerEvent(q, q.worker.Took? && known(q.worker.t)), cap), known, cap)
  }

  /** From every state whose flag will be seen, the worker alone ends quiet with every request served. */
  lemma {:induction false} WorkerServesAll(q: Queue, known: TrackID -> bool, cap: nat)
    requires AllCovered(q) && FlagWillBeSeen(q) && q.storing == []
    ensures Quiet(Work(q, known, cap)) && Work(q, known, cap).unserved == {} && !Work(q, known, cap).overflow
    decreases WorkLeft(q)
  {
    if !Quiet(q) {
      var e := WorkerEvent(q, q.worker.Took? && known(q.worker.t));
      StepKeepsCovered(q, e, cap);
      WorkerServesAll(Step(q, e, cap), known, cap);
    }
  }

  // ---------------------------------------------------------------------------------------
  // The failing case
  // ---------------------------------------------------------------------------------------

  lemma RunThen(es: seq<Event>, e: Event, cap: nat)
    ensures Run(es + [e], cap) == Step(Run(es, cap), e, cap)
  {
    assert (es + [e])[..|es|] == es;
  }

  function Requests(t: TrackID, n: nat): seq<Event> { if n == 0 then [] else Requests(t, n - 1) + [Request(t)] }

  function Rounds(n: nat): seq<Event> {
    if n == 0 then [] else Rounds(n - 1) + [Take] + [Reconcile(true)] + [Swap]
  }

  lemma {:induction false} FillUp(t: TrackID, n: nat, cap: nat)
    requires n <= cap
    ensures var q := Run(Requests(t, n), cap);
            && |q.channel| == n && (forall x :: x in q.channel ==> x == t)
            && q.worker == Idle && !q.overflow && q.storing == [] && q.unserved <= {t} && q.taken == 0
  {
    if n > 0 {
      FillUp(t, n - 1, cap);
      RunThen(Requests(t, n - 1), Request(t), cap);
    }
  }

  lemma OneRound(es: seq<Event>, t: TrackID, cap: nat)
    requires var q := Run(es, cap); q.channel != [] && q.channel[0] == t && q.worker == Idle && !q.overflow
    ensures var q := Run(es, cap);
            Run(es + [Take] + [Reconcile(true)] + [Swap], cap)
            == q.(channel := q.channel[1..], unserved := q.unserved - {t}, taken := q.taken + 1)
  {
    RunThen(es, Take, cap);
    RunThen(es + [Take], Reconcile(true), cap);
    RunThen(es + [Take] + [Reconcile(true)], Swap, cap);
  }

  /** What `n` rounds leave of a queue of wake-ups for one track. */
  function Drained(q: Queue, t: TrackID, n: nat): Queue
    requires n <= |q.channel|
  {
    q.(channel := q.channel[n..], taken := q.taken + n, unserved := if n == 0 then q.unserved else q.unserved - {t})
  }

  lemma DrainedNext(q: Queue, t: TrackID, n: nat)
    requires n < |q.channel|
    ensures var p := Drained(q, t, n);
            Drained(q, t, n + 1) == p.(channel := p.channel[1..], unserved := p.unserved - {t}, taken := p.taken + 1)
  {
  }

  lemma RoundsNext(es: seq<Event>, n: nat)
    ensures es + Rounds(n + 1) == es + Rounds(n) + [Take] + [Reconcile(true)] + [Swap]
  {
  }

  lemma OneMoreRound(es: seq<Event>, q: Queue, t: TrackID, n: nat, cap: nat)
    requires n < |q.channel| && q.channel[n] == t && q.worker == Idle && !q.overflow
    requires Run(es, cap) == Drained(q, t, n)
    ensures Run(es + [Take] + [Reconcile(true)] + [Swap], cap) == Drained(q, t, n + 1)
  {
    OneRound(es, t, cap);
    DrainedNext(q, t, n);
  }

  lemma {:induction false} DrainRounds(es: seq<Event>, t: TrackID, n: nat, cap: nat)
    requires var q := Run(es, cap);
             n <= |q.channel| && (forall x :: x in q.channel ==> x == t) && q.worker == Idle && !q.overflow
    ensures Run(es + Rounds(n), cap) == Drained(Run(es, cap), t, n)
  {
    var q := Run(es, cap);
    if n == 0 {
      assert es + Rounds(0) == es;
    } else {
      DrainRounds(es, t, n - 1, cap);
      assert q.channel[n - 1] in q.channel;
      OneMoreRound(es + Rounds(n - 1), q, t, n - 1, cap);
      RoundsNext(es, n - 1);
    }
  }

  /**
   The channel is full of wake-ups for `a` when `b` is requested; the worker empties it before the
   producer stores the flag, and now waits, with the flag set, for an item that need not come.
   */
  lemma LateStoreStrands(a: TrackID, b: TrackID, cap: nat)
    requires a != b && cap > 0
    ensures var q := Run(Requests(a, cap) + [Request(b)] + Rounds(cap) + [Store(0)], cap);
            q.channel == [] && q.worker == Idle && q.overflow && q.unserved == {b} && !FlagWillBeSeen(q)
  {
    FillUp(a, cap, cap);
    RunThen(Requests(a, cap), Request(b), cap);
    var es := Requests(a, cap) + [Request(b)];
    assert b in Run(es, cap).unserved;
    DrainRounds(es, a, cap, cap);
    RunThen(es + Rounds(cap), Store(0), cap);
  }
}
