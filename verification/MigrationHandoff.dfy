/**
 A publisher's reliable data while the publisher moves between nodes: MigrationDataCache
 (pkg/rtc/migrationdatacache.go), the sequence part of onReceivedDataMessage and
 handleReceivedDataMessage, GetLastReliableSequence and the cache's creation on migration
 (pkg/rtc/participant.go). One packet handler is one step.
 */
module MigrationHandoff {
  import opened Prelude

  const CACHE_MAX_SIZE := 4194304  // 4 << 20

  /** A reliable packet; number zero means it is not sequenced. */
  datatype Packet = Packet(no: Seq32, data: string)

  /** A packet with its encoded size and the clock when it came in. */
  datatype Arrival = Arrival(pkt: Packet, size: nat, now: int)

  datatype CacheState = Waiting | Timeout | Done

  datatype Cache = Cache(lastSeq: Seq32, pkts: seq<Packet>, size: nat, state: CacheState, expiredAt: int)

  function AddToCache(c: Cache, a: Arrival): Cache {
    if c.state != Waiting || a.pkt.no <= c.lastSeq then c
    else if a.pkt.no == NextSeq(c.lastSeq) then c.(state := Done)
    else
      var size := c.size + a.size;
      c.(pkts := c.pkts + [a.pkt], size := size,
         state := if size >= CACHE_MAX_SIZE || a.now > c.expiredAt then Timeout else Waiting)
  }

  class MigrationDataCache {
    var lastSeq: Seq32
    var pkts: seq<Packet>
    var size: nat
    var state: CacheState
    var expiredAt: int

    function Value(): Cache
      reads this
    {
      Cache(lastSeq, pkts, size, state, expiredAt)
    }

    constructor (lastSeq: Seq32, expiredAt: int)
      ensures Value() == Cache(lastSeq, [], 0, Waiting, expiredAt)
    {
      this.lastSeq, this.expiredAt := lastSeq, expiredAt;
      pkts, size, state := [], 0, Waiting;
    }

    method Add(a: Arrival) returns (st: CacheState)
      modifies this
      ensures Value() == AddToCache(old(Value()), a)
      ensures st == state && lastSeq == old(lastSeq) && expiredAt == old(expiredAt)
      ensures old(state) != Waiting || a.pkt.no <= lastSeq ==> Value() == old(Value())
      ensures old(state) == Waiting && a.pkt.no == lastSeq + 1 ==> Value() == old(Value()).(state := Done)
      ensures old(state) == Waiting && a.pkt.no > lastSeq + 1 ==>
                && pkts == old(pkts) + [a.pkt] && size == old(size) + a.size
                && state == if size >= 4 * 1024 * 1024 || a.now > expiredAt then Timeout else Waiting
    {
      if state == Done || state == Timeout {
        return state;
      }
      if a.pkt.no <= lastSeq {
        return state;
      }
      if a.pkt.no == NextSeq(lastSeq) {
        state := Done;
        return state;
      }
      pkts := pkts + [a.pkt];
      size := size + a.size;
      if size >= CACHE_MAX_SIZE || a.now > expiredAt {
        state := Timeout;
      }
      st := state;
    }
  }

  // ---------------------------------------------------------------------------------------
  // The packet handler
  // ---------------------------------------------------------------------------------------

  /** A node's view of the publisher; `forwarded` is what passed the sequence check, in order. */
  datatype Node = Node(lastPub: Seq32, stopped: bool, cache: Option<Cache>, forwarded: seq<Packet>,
      unsequenced: seq<Packet>)

  /** Participant creation: lastPubReliableSeq starts at the number the old node handed over. */
  function NewNode(lastPub: Seq32): Node { Node(lastPub, false, None, [], []) }

  /** The sequence part of handleReceivedDataMessage. */
  function Handle(n: Node, p: Packet): Node {
    if p.no == 0 then n.(unsequenced := n.unsequenced + [p])
    else if n.lastPub >= p.no then n
    else n.(lastPub := p.no, forwarded := n.forwarded + [p])
  }

  function HandleAll(n: Node, ps: seq<Packet>): Node {
    if ps == [] then n else Handle(HandleAll(n, ps[..|ps| - 1]), ps[|ps| - 1])
  }

  function Receive(n: Node, a: Arrival): Node {
    if a.pkt.no > 0 && n.stopped then n
    else if a.pkt.no > 0 && n.cache.Some? then
      var c := AddToCache(n.cache.value, a);
      match c.state
      case Waiting => n.(cache := Some(c))
      case Timeout => HandleAll(n.(cache := None), c.pkts)
      case Done => Handle(n.(cache := None), a.pkt)
    else Handle(n, a.pkt)
  }

  /** GetLastReliableSequence. */
  function LastReliable(n: Node, migrateOut: bool): (Node, Seq32) {
    (if migrateOut then n.(stopped := true) else n, n.lastPub)
  }

  /** SetMigrateState(complete) after sync: the cache is set up unless nothing was published before. */
  function MigrationComplete(n: Node, handedOver: Seq32, expiredAt: int): Node {
    if handedOver > 0 then n.(cache := Some(Cache(handedOver, [], 0, Waiting, expiredAt))) else n
  }

  class Publisher {
    const handedOver: Seq32
    var lastPub: Seq32
    var stopped: bool
    var cache: MigrationDataCache?
    var forwarded: seq<Packet>
    var unsequenced: seq<Packet>

    function Value(): Node
      reads this, cache
    {
      Node(lastPub, stopped, if cache == null then None else Some(cache.Value()), forwarded, unsequenced)
    }

    constructor (handedOver: Seq32)
      ensures Value() == NewNode(handedOver) && this.handedOver == handedOver
    {
      this.handedOver, lastPub := handedOver, handedOver;
      stopped, cache, forwarded, unsequenced := false, null, [], [];
    }

    method HandleReceivedDataMessage(p: Packet)
      modifies `lastPub, `forwarded, `unsequenced
      ensures Value() == Handle(old(Value()), p)
      ensures unsequenced == old(unsequenced) + if p.no == 0 then [p] else []
      ensures forwarded == old(forwarded) + if p.no > old(lastPub) then [p] else []
      ensures lastPub == if p.no > old(lastPub) then p.no else old(lastPub)
    {
      if p.no > 0 {
        if lastPub >= p.no {
          return;
        }
        lastPub := p.no;
        forwarded := forwarded + [p];
      } else {
        unsequenced := unsequenced + [p];
      }
    }

    method OnReceivedDataMessage(a: Arrival)
      modifies this, cache
      ensures Value() == Receive(old(Value()), a)
      ensures a.pkt.no > 0 && old(stopped) ==> Value() == old(Value())
      ensures a.pkt.no == 0 ==> Value() == old(Value()).(unsequenced := old(unsequenced) + [a.pkt])
      ensures a.pkt.no > 0 && !old(stopped) && old(cache) == null ==>
                Value() == if a.pkt.no <= old(lastPub) then old(Value())
                           else old(Value()).(lastPub := a.pkt.no, forwarded := old(forwarded) + [a.pkt])
    {
      if a.pkt.no > 0 {
        if stopped {
          return;
        }
        if cache != null {
          var c := cache;
          var st := c.Add(a);
          match st
          case Waiting => return;
          case Timeout =>
            cache := null;
            var cachedMsgs := c.pkts;
            ghost var start := Value();
            for k := 0 to |cachedMsgs|
              invariant cache == null
              invariant Value() == HandleAll(start, cachedMsgs[..k])
            {
              assert cachedMsgs[..k + 1][..k] == cachedMsgs[..k];
              HandleReceivedDataMessage(cachedMsgs[k]);
            }
            assert cachedMsgs[..|cachedMsgs|] == cachedMsgs;
            return;
          case Done => cache := null;
        }
      }
      HandleReceivedDataMessage(a.pkt);
    }

    method GetLastReliableSequence(migrateOut: bool) returns (last: Seq32)
      modifies `stopped
      ensures (Value(), last) == LastReliable(old(Value()), migrateOut)
      ensures last == lastPub && (stopped <==> old(stopped) || migrateOut)
    {
      if migrateOut {
        stopped := true;
      }
      last := lastPub;
    }

    method SetMigrateStateComplete(expiredAt: int)
      modifies `cache
      ensures Value() == MigrationComplete(old(Value()), handedOver, expiredAt)
      ensures handedOver == 0 ==> cache == old(cache)
      ensures handedOver > 0 ==>
                fresh(cache) && cache.Value() == Cache(handedOver, [], 0, Waiting, expiredAt)
    {
      if handedOver > 0 {
        cache := new MigrationDataCache(handedOver, expiredAt);
      }
    }
  }

  // ---------------------------------------------------------------------------------------
  // Runs on one node and across two
  // ---------------------------------------------------------------------------------------

  datatype Event = Arrive(a: Arrival) | Poll(migrateOut: bool) | Complete(expiredAt: int)

  function Step(n: Node, e: Event, handedOver: Seq32): Node {
    match e
    case Arrive(a) => Receive(n, a)
    case Poll(out) => LastReliable(n, out).0
    case Complete(at) => MigrationComplete(n, handedOver, at)
  }

  function Run(es: seq<Event>, handedOver: Seq32): Node {
    if es == [] then NewNode(handedOver) else Step(Run(es[..|es| - 1], handedOver), es[|es| - 1], handedOver)
  }

  ghost predicate StrictlyRising(ps: seq<Packet>) {
    forall i, j :: 0 <= i < j < |ps| ==> ps[i].no < ps[j].no
  }

  ghost predicate NodeInv(n: Node, handedOver: Seq32) {
    && StrictlyRising(n.forwarded)
    && handedOver <= n.lastPub
    && (forall p :: p in n.forwarded ==> handedOver < p.no <= n.lastPub)
  }

  lemma {:induction false} HandleAllKeeps(n: Node, ps: seq<Packet>, handedOver: Seq32)
    requires NodeInv(n, handedOver)
    ensures NodeInv(HandleAll(n, ps), handedOver)
  {
    if ps != [] {
      HandleAllKeeps(n, ps[..|ps| - 1], handedOver);
    }
  }

  lemma {:induction false} RunKeeps(es: seq<Event>, handedOver: Seq32)
    ensures NodeInv(Run(es, handedOver), handedOver)
  {
    if es != [] {
      var n, e := Run(es[..|es| - 1], handedOver), es[|es| - 1];
      RunKeeps(es[..|es| - 1], handedOver);
      if e.Arrive? && n.cache.Some? {
        HandleAllKeeps(n.(cache := None), AddToCache(n.cache.value, e.a).pkts, handedOver);
      }
    }
  }

  lemma {:induction false} StoppedForwardsNothing(es: seq<Event>, more: seq<Event>, handedOver: Seq32)
    requires Run(es, handedOver).stopped
    ensures Run(es + more, handedOver).stopped && Run(es + more, handedOver).forwarded == Run(es, handedOver).forwarded
    decreases |more|
  {
    if more == [] {
      assert es + more == es;
    } else {
      StoppedForwardsNothing(es, more[..|more| - 1], handedOver);
      assert (es + more)[..|es + more| - 1] == es + more[..|more| - 1];
    }
  }

  /**
   The hand-off: the old node is stopped by GetLastReliableSequence at any point of its run, goes on
   receiving, and the new node starts from the number returned. Whatever arrives on either node,
   every number is forwarded at most once over both, in strictly rising order.
   */
  lemma HandOffForwardsOnceInOrder(start: Seq32, before: seq<Event>, after: seq<Event>, onNew: seq<Event>)
    ensures var stop := before + [Poll(true)];
            var last := LastReliable(Run(before, start), true).1;
            StrictlyRising(Run(stop + after, start).forwarded + Run(onNew, last).forwarded)
  {
    var stop := before + [Poll(true)];
    assert stop[..|before|] == before;
    var last := Run(before, start).lastPub;
    RunKeeps(before, start);
    StoppedForwardsNothing(stop, after, start);
    RunKeeps(onNew, last);
    var old', new' := Run(before, start).forwarded, Run(onNew, last).forwarded;
    assert Run(stop, start).forwarded == old';
    forall i, j | 0 <= i < |old'| && 0 <= j < |new'|
      ensures old'[i].no < new'[j].no
    {
      assert old'[i] in old' && new'[j] in new';
    }
  }

  // ---------------------------------------------------------------------------------------
  // What the new node forwards, by arrival order
  // ---------------------------------------------------------------------------------------

  function Highest(base: Seq32, ps: seq<Packet>): Seq32 {
    if ps == [] then base
    else
      var h := Highest(base, ps[..|ps| - 1]);
      if ps[|ps| - 1].no > h then ps[|ps| - 1].no else h
  }

  /** The packets that exceed `base` and every packet before them. */
  function RunningMaxima(base: Seq32, ps: seq<Packet>): seq<Packet> {
    if ps == [] then []
    else
      var init, p := ps[..|ps| - 1], ps[|ps| - 1];
      RunningMaxima(base, init) + if p.no > Highest(base, init) then [p] else []
  }

  lemma {:induction false} HighestBounds(base: Seq32, ps: seq<Packet>)
    ensures base <= Highest(base, ps)
    ensures forall p :: p in ps ==> p.no <= Highest(base, ps)
    ensures Highest(base, ps) == base || exists p :: p in ps && p.no == Highest(base, ps)
  {
    if ps != [] {
      HighestBounds(base, ps[..|ps| - 1]);
      assert ps == ps[..|ps| - 1] + [ps[|ps| - 1]];
      assert ps[|ps| - 1] in ps;
    }
  }

  /** `RunningMaxima` by positions: a packet is kept iff it exceeds the base and everything earlier. */
  lemma {:induction false} KeptIffMaximum(base: Seq32, ps: seq<Packet>, k: nat)
    requires k < |ps|
    ensures RunningMaxima(base, ps[..k + 1]) == RunningMaxima(base, ps[..k])
              + (if ps[k].no > base && (forall j :: 0 <= j < k ==> ps[j].no < ps[k].no) then [ps[k]] else [])
  {
    var init := ps[..k];
    assert ps[..k + 1][..k] == init;
    HighestBounds(base, init);
    assert forall j :: 0 <= j < k ==> ps[j] == init[j] && init[j] in init;
  }

  function Packets(arrivals: seq<Arrival>): seq<Packet> {
    seq(|arrivals|, k requires 0 <= k < |arrivals| => arrivals[k].pkt)
  }

  function ReceiveAll(n: Node, arrivals: seq<Arrival>): Node {
    if arrivals == [] then n else Receive(ReceiveAll(n, arrivals[..|arrivals| - 1]), arrivals[|arrivals| - 1])
  }

  lemma {:induction false} HandlesRunningMaxima(n: Node, ps: seq<Packet>)
    requires forall p :: p in ps ==> p.no > 0
    ensures var n' := HandleAll(n, ps);
            && n'.forwarded == n.forwarded + RunningMaxima(n.lastPub, ps) && n'.lastPub == Highest(n.lastPub, ps)
            && n'.stopped == n.stopped && n'.cache == n.cache
  {
    if ps != [] {
      assert ps == ps[..|ps| - 1] + [ps[|ps| - 1]];
      HandlesRunningMaxima(n, ps[..|ps| - 1]);
    }
  }

  /** Without a cache, live packets are handled one by one. */
  lemma {:induction false} LiveIsHandleAll(n: Node, arrivals: seq<Arrival>)
    requires n.cache.None? && !n.stopped
    requires AllSequenced(arrivals)
    ensures ReceiveAll(n, arrivals) == HandleAll(n, Packets(arrivals))
    ensures ReceiveAll(n, arrivals).cache.None? && !ReceiveAll(n, arrivals).stopped
  {
    if arrivals != [] {
      var init := arrivals[..|arrivals| - 1];
      assert arrivals == init + [arrivals[|arrivals| - 1]];
      LiveIsHandleAll(n, init);
      assert Packets(arrivals)[..|arrivals| - 1] == Packets(init);
    }
  }

  ghost predicate AllSequenced(arrivals: seq<Arrival>) { forall a :: a in arrivals ==> a.pkt.no > 0 }

  lemma LiveForwardsMaxima(n: Node, arrivals: seq<Arrival>)
    requires n.cache.None? && !n.stopped && AllSequenced(arrivals)
    ensures ReceiveAll(n, arrivals).forwarded == n.forwarded + RunningMaxima(n.lastPub, Packets(arrivals))
  {
    LiveIsHandleAll(n, arrivals);
    forall p | p in Packets(arrivals)
      ensures p.no > 0
    {
      var k :| 0 <= k < |arrivals| && Packets(arrivals)[k] == p;
      assert arrivals[k] in arrivals;
    }
    HandlesRunningMaxima(n, Packets(arrivals));
  }

  lemma ReceiveThen(n: Node, before: seq<Arrival>, a: Arrival)
    ensures ReceiveAll(n, before + [a]) == Receive(ReceiveAll(n, before), a)
    ensures Packets(before + [a]) == Packets(before) + [a.pkt]
  {
    assert (before + [a])[..|before|] == before;
  }

  /** The arrivals beyond the handed-over number, in arrival order. */
  function Beyond(last: Seq32, ps: seq<Packet>): seq<Packet> {
    if ps == [] then [] else
    Beyond(last, ps[..|ps| - 1]) + if ps[|ps| - 1].no > last then [ps[|ps| - 1]] else []
  }

  lemma {:induction false} BeyondHasSameMaxima(last: Seq32, ps: seq<Packet>)
    ensures RunningMaxima(last, Beyond(last, ps)) == RunningMaxima(last, ps)
    ensures Highest(last, Beyond(last, ps)) == Highest(last, ps) >= last
    ensures forall p :: p in Beyond(last, ps) ==> p.no > last
  {
    if ps != [] {
      var init, p := ps[..|ps| - 1], ps[|ps| - 1];
      BeyondHasSameMaxima(last, init);
      var b := Beyond(last, init);
      if p.no > last {
        assert (b + [p])[..|b|] == b;
      } else {
        assert b + [] == b;
        assert RunningMaxima(last, init) + [] == RunningMaxima(last, init);
      }
    }
  }

  /** The node right after the migration is complete, before any packet. */
  function Migrated(last: Seq32, expiredAt: int): Node { MigrationComplete(NewNode(last), last, expiredAt) }

  /** A packet that leaves the cache there has only been added to it. */
  lemma WaitsOn(n: Node, a: Arrival)
    requires n.cache.Some? && !n.stopped && a.pkt.no > 0 && Receive(n, a).cache.Some?
    ensures var c := AddToCache(n.cache.value, a); c.state == Waiting && Receive(n, a) == n.(cache := Some(c))
  {
    if AddToCache(n.cache.value, a).state == Timeout {
      CacheGoneAfter(n.(cache := None), AddToCache(n.cache.value, a).pkts);
    }
  }

  /** The bytes of what lies beyond the handed-over number. */
  function BytesBeyond(last: Seq32, arrivals: seq<Arrival>): nat {
    if arrivals == [] then 0
    else
      var a := arrivals[|arrivals| - 1];
      BytesBeyond(last, arrivals[..|arrivals| - 1]) + if a.pkt.no > last then a.size else 0
  }

  /** What ends the wait: the next number; or one beyond it that fills four mebibytes, or comes after the deadline. */
  predicate EndsWait(last: Seq32, expiredAt: int, before: seq<Arrival>, a: Arrival) {
    || a.pkt.no == last + 1
    || (a.pkt.no > last + 1 && (BytesBeyond(last, before) + a.size >= 4 * 1024 * 1024 || a.now > expiredAt))
  }

  /** None of the arrivals ended it. */
  ghost predicate Waits(last: Seq32, expiredAt: int, arrivals: seq<Arrival>) {
    forall k :: 0 <= k < |arrivals| ==> !EndsWait(last, expiredAt, arrivals[..k], arrivals[k])
  }

  lemma WaitsNext(last: Seq32, expiredAt: int, before: seq<Arrival>, a: Arrival)
    ensures Waits(last, expiredAt, before + [a]) <==>
            Waits(last, expiredAt, before) && !EndsWait(last, expiredAt, before, a)
  {
    var all := before + [a];
    assert all[|before|] == a && all[..|before|] == before;
    assert forall k :: 0 <= k < |before| ==> all[k] == before[k] && all[..k] == before[..k];
  }

  lemma CacheStaysIff(n: Node, a: Arrival)
    requires n.cache.Some? && !n.stopped && a.pkt.no > 0
    ensures Receive(n, a).cache.Some? <==> AddToCache(n.cache.value, a).state == Waiting
  {
    CacheGoneAfter(n.(cache := None), AddToCache(n.cache.value, a).pkts);
  }

  lemma AddEndsIff(c: Cache, last: Seq32, before: seq<Arrival>, a: Arrival)
    requires c.state == Waiting && c.lastSeq == last && c.size == BytesBeyond(last, before)
    ensures AddToCache(c, a).state == Waiting <==> !EndsWait(last, c.expiredAt, before, a)
  {
  }

  /** The node waits exactly as long as nothing that arrived has ended the wait. */
  lemma {:induction false} WaitsIff(last: Seq32, expiredAt: int, arrivals: seq<Arrival>)
    requires last > 0 && AllSequenced(arrivals)
    ensures ReceiveAll(Migrated(last, expiredAt), arrivals).cache.Some? <==> Waits(last, expiredAt, arrivals)
  {
    if arrivals != [] {
      var init, a := arrivals[..|arrivals| - 1], arrivals[|arrivals| - 1];
      assert arrivals == init + [a];
      WaitsIff(last, expiredAt, init);
      WaitsNext(last, expiredAt, init, a);
      var n := ReceiveAll(Migrated(last, expiredAt), init);
      if n.cache.None? {
        StaysLive(last, expiredAt, init);
      } else {
        WaitingHoldsBack(last, expiredAt, init);
        CacheStaysIff(n, a);
        AddEndsIff(n.cache.value, last, init, a);
      }
    }
  }

  /** Still waiting: nothing is forwarded, and the cache is what lies beyond the gap. */
  lemma {:induction false} WaitingHoldsBack(last: Seq32, expiredAt: int, arrivals: seq<Arrival>)
    requires last > 0
    requires AllSequenced(arrivals)
    requires ReceiveAll(Migrated(last, expiredAt), arrivals).cache.Some?
    ensures var n := ReceiveAll(Migrated(last, expiredAt), arrivals);
            && n.(cache := None) == NewNode(last)
            && n.cache.value.state == Waiting && n.cache.value.lastSeq == last && n.cache.value.expiredAt == expiredAt
            && n.cache.value.pkts == Beyond(last, Packets(arrivals))
            && n.cache.value.size == BytesBeyond(last, arrivals)
  {
    if arrivals != [] {
      var init, a := arrivals[..|arrivals| - 1], arrivals[|arrivals| - 1];
      assert arrivals == init + [a];
      var n := ReceiveAll(Migrated(last, expiredAt), init);
      if n.cache.None? {
        StaysLive(last, expiredAt, init);
      }
      WaitingHoldsBack(last, expiredAt, init);
      assert Packets(arrivals)[..|init|] == Packets(init);
      if a.pkt.no <= last {
        assert Beyond(last, Packets(init)) + [] == Beyond(last, Packets(init));
      }
      WaitsOn(n, a);
    }
  }

  lemma {:induction false} CacheGoneAfter(n: Node, ps: seq<Packet>)
    requires n.cache.None?
    ensures HandleAll(n, ps).cache.None? && HandleAll(n, ps).stopped == n.stopped
  {
    if ps != [] {
      CacheGoneAfter(n, ps[..|ps| - 1]);
    }
  }

  /** A cache once dropped does not come back. */
  lemma StaysLive(last: Seq32, expiredAt: int, init: seq<Arrival>)
    requires ReceiveAll(Migrated(last, expiredAt), init).cache.None?
    ensures forall a :: Receive(ReceiveAll(Migrated(last, expiredAt), init), a).cache.None?
  {
  }

  /**
   The gap closes: the first packet forwarded is last + 1, then every maximum after it; what was cached is
   dropped.
   */
  lemma GapClosed(last: Seq32, expiredAt: int, before: seq<Arrival>, a: Arrival, after: seq<Arrival>)
    requires last > 0 && AllSequenced(before) && AllSequenced(after)
    requires Waits(last, expiredAt, before) && a.pkt.no == last + 1
    ensures ReceiveAll(ReceiveAll(Migrated(last, expiredAt), before + [a]), after).forwarded
            == [a.pkt] + RunningMaxima(last + 1, Packets(after))
            == RunningMaxima(last, [a.pkt] + Packets(after))
  {
    WaitsIff(last, expiredAt, before);
    WaitingHoldsBack(last, expiredAt, before);
    ReceiveThen(Migrated(last, expiredAt), before, a);
    var n := ReceiveAll(Migrated(last, expiredAt), before + [a]);
    assert n == Handle(NewNode(last), a.pkt);
    LiveForwardsMaxima(n, after);
    MaximaOfBoth(last, [a.pkt], Packets(after));
    InOrderIsAllForwarded(last, [a.pkt]);
  }

  lemma TimeoutHandlesEverything(last: Seq32, expiredAt: int, before: seq<Arrival>, a: Arrival)
    requires last > 0 && AllSequenced(before) && a.pkt.no > last + 1
    requires Waits(last, expiredAt, before) && EndsWait(last, expiredAt, before, a)
    ensures var n := ReceiveAll(Migrated(last, expiredAt), before + [a]);
            && n.forwarded == RunningMaxima(last, Packets(before + [a]))
            && n.lastPub == Highest(last, Packets(before + [a]))
            && n.cache.None? && !n.stopped
  {
    var ps := Packets(before + [a]);
    WaitsIff(last, expiredAt, before);
    WaitingHoldsBack(last, expiredAt, before);
    ReceiveThen(Migrated(last, expiredAt), before, a);
    assert ps[..|before|] == Packets(before);
    assert AddToCache(ReceiveAll(Migrated(last, expiredAt), before).cache.value, a).pkts == Beyond(last, ps);
    BeyondHasSameMaxima(last, ps);
    HandlesRunningMaxima(NewNode(last), Beyond(last, ps));
  }

  /**
   The wait ends with a packet beyond the next number that fills the cache or comes too late: exactly the running
   maxima of everything that arrives are forwarded.
   */
  lemma WaitTimedOut(last: Seq32, expiredAt: int, before: seq<Arrival>, a: Arrival, after: seq<Arrival>)
    requires last > 0 && AllSequenced(before) && a.pkt.no > last + 1 && AllSequenced(after)
    requires Waits(last, expiredAt, before) && EndsWait(last, expiredAt, before, a)
    ensures ReceiveAll(ReceiveAll(Migrated(last, expiredAt), before + [a]), after).forwarded
            == RunningMaxima(last, Packets(before + [a]) + Packets(after))
  {
    TimeoutHandlesEverything(last, expiredAt, before, a);
    LiveForwardsMaxima(ReceiveAll(Migrated(last, expiredAt), before + [a]), after);
    MaximaOfBoth(last, Packets(before + [a]), Packets(after));
  }

  lemma {:induction false} MaximaOfBoth(base: Seq32, ps: seq<Packet>, qs: seq<Packet>)
    ensures RunningMaxima(base, ps + qs) == RunningMaxima(base, ps) + RunningMaxima(Highest(base, ps), qs)
    ensures Highest(base, ps + qs) == Highest(Highest(base, ps), qs)
    decreases |qs|
  {
    if qs == [] {
      assert ps + qs == ps;
    } else {
      MaximaOfBoth(base, ps, qs[..|qs| - 1]);
      assert (ps + qs)[..|ps + qs| - 1] == ps + qs[..|qs| - 1];
    }
  }

  /** A publisher that resumes in order loses nothing: rising packets above the base are all maxima. */
  lemma {:induction false} InOrderIsAllForwarded(base: Seq32, ps: seq<Packet>)
    requires StrictlyRising(ps) && (ps != [] ==> ps[0].no > base)
    ensures RunningMaxima(base, ps) == ps
    ensures Highest(base, ps) == if ps == [] then base else ps[|ps| - 1].no
  {
    if ps != [] {
      var init := ps[..|ps| - 1];
      InOrderIsAllForwarded(base, init);
      assert ps == init + [ps[|ps| - 1]];
    }
  }
}
