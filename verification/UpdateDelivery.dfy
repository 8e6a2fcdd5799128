/**
 The delivery of participant updates to one participant: they are queued until the connection has opened,
 checked against the versions sent before under a lock, and written after the lock has been released.
 */
module UpdateDelivery {
  import opened Prelude

  type Sid = string

  datatype Info = Info(sid: Sid, version: nat, hidden: bool, content: nat)

  datatype State = Joining | Joined | Active | Disconnected

  /** The participant the updates go to. */
  datatype Self = Self(sid: Sid, migration: bool)

  /**
   What happened to the version cache, oldest first: entries evicted to make room, a participant told of in
   the Join response, and an update found valid as part of the numbered batch.
   */
  datatype Item = Evicted(sids: set<Sid>) | Told(info: Info) | Valid(info: Info, batch: nat)

  /** The cache of versions sent, with its history. */
  datatype Checked = Checked(cache: map<Sid, nat>, log: seq<Item>)

  /** Which entries the LRU cache has dropped before it is asked for the k-th update of a batch. */
  type Evictions = nat -> set<Sid>

  function Evict(c: Checked, gone: set<Sid>): Checked { Checked(c.cache - gone, c.log + [Evicted(gone)]) }

  predicate Outdated(cache: map<Sid, nat>, i: Info) { i.sid in cache && i.version < cache[i.sid] }

  predicate HiddenFrom(self: Self, i: Info) { i.hidden && i.sid != self.sid }

  function Check(self: Self, c: Checked, i: Info, batch: nat): Checked {
    if Outdated(c.cache, i) || HiddenFrom(self, i) then c
    else Checked(c.cache[i.sid := i.version], c.log + [Valid(i, batch)])
  }

  /** The loop over a batch. */
  function CheckAll(self: Self, c: Checked, infos: seq<Info>, gone: Evictions, batch: nat): Checked {
    if infos == [] then c
    else
      var n := |infos| - 1;
      Check(self, Evict(CheckAll(self, c, infos[..n], gone, batch), gone(n)), infos[n], batch)
  }

  function Tell(c: Checked, infos: seq<Info>, gone: Evictions): Checked {
    if infos == [] then c
    else
      var n := |infos| - 1;
      var before := Evict(Tell(c, infos[..n], gone), gone(n));
      Checked(before.cache[infos[n].sid := infos[n].version], before.log + [Told(infos[n])])
  }

  /** The updates of one batch that were found valid. */
  function Batch(log: seq<Item>, n: nat): seq<Info> {
    if log == [] then []
    else
      var last := log[|log| - 1];
      Batch(log[..|log| - 1], n) + if last.Valid? && last.batch == n then [last.info] else []
  }

  // ---------------------------------------------------------------------------------------
  // The participant
  // ---------------------------------------------------------------------------------------

  /**
   `joinWritten` tells that the Join response was written, `reconnectSent` that the ReconnectResponse was (or
   needs not be), `owed` that the handshake has ended and the flush this calls for is yet to run; `taken` are
   queues on their way from a flush to SendParticipantUpdate; batches below `batches` have been checked, those
   in `inFlight` not written yet, those in `written` written in that order. `offered`, `judged` and `dropped`
   record what came in, what was checked, and what came when the participant was gone.
   */
  datatype Delivery = Delivery(
    state: State, joinWritten: bool, reconnectSent: bool, handshakePending: bool,
    queued: seq<Info>, owed: bool, taken: seq<seq<Info>>,
    checked: Checked, batches: nat, inFlight: set<nat>, written: seq<nat>,
    offered: set<Info>, judged: set<Info>, dropped: set<Info>)

  predicate IsReady(self: Self, d: Delivery) {
    if self.migration then d.state != Disconnected && d.reconnectSent else d.state == Joined || d.state == Active
  }

  predicate Opened(self: Self, d: Delivery) { if self.migration then d.reconnectSent else d.joinWritten }

  function Members(infos: seq<Info>): set<Info> { set i | i in infos }

  function Send(self: Self, d: Delivery, infos: seq<Info>, gone: Evictions): Delivery {
    if d.state == Disconnected then d.(dropped := d.dropped + Members(infos))
    else if !IsReady(self, d) || d.handshakePending then d.(queued := d.queued + infos)
    else d.(checked := CheckAll(self, d.checked, infos, gone, d.batches), judged := d.judged + Members(infos),
            batches := d.batches + 1, inFlight := d.inFlight + {d.batches})
  }

  function TakeQueue(d: Delivery): Delivery {
    d.(queued := [], owed := false, taken := if d.queued == [] then d.taken else d.taken + [d.queued])
  }

  datatype Event =
    | Offer(infos: seq<Info>, gone: Evictions)
    | SendTaken(k: nat, gone: Evictions)
    | WriteBatch(n: nat, ok: bool)
    | JoinTells(others: seq<Info>, gone: Evictions)
    | JoinWritten
    | JoinDone
    | ReconnectSent
    | FlushQueue
    | SetHandshake(pending: bool)
    | Activate
    | Disconnect

  function Step(self: Self, d: Delivery, e: Event): Delivery {
    match e
    case Offer(infos, gone) => Send(self, d.(offered := d.offered + Members(infos)), infos, gone)
    case SendTaken(k, gone) =>
      if k < |d.taken| then Send(self, d.(taken := d.taken[..k] + d.taken[k + 1..]), d.taken[k], gone) else d
    case WriteBatch(n, ok) =>
      if n !in d.inFlight then d
          else d.(inFlight := d.inFlight - {n}, written := if ok then d.written + [n] else d.written)
    case JoinTells(others, gone) =>
      if self.migration || d.state != Joining then d else d.(checked := Tell(d.checked, others, gone))
    case JoinWritten => if self.migration then d else d.(joinWritten := true)
    case JoinDone =>
      if self.migration || !d.joinWritten then d
          else TakeQueue(d.(state := if d.state == Joining then Joined else d.state))
    case ReconnectSent => TakeQueue(d.(reconnectSent := true, handshakePending := false))
    case FlushQueue => TakeQueue(d)
    case SetHandshake(pending) => d.(handshakePending := pending, owed := d.owed || (d.handshakePending && !pending))
    case Activate => if d.state == Joined || (self.migration && d.state == Joining) then d.(state := Active) else d
    case Disconnect => d.(state := Disconnected)
  }

  function NewDelivery(): Delivery {
    Delivery(Joining, false, false, false, [], false, [], Checked(map[], []), 0, {}, [], {}, {}, {})
  }

  function Run(self: Self, es: seq<Event>): Delivery {
    if es == [] then NewDelivery() else Step(self, Run(self, es[..|es| - 1]), es[|es| - 1])
  }

  lemma BatchGrows(log: seq<Item>, item: Item, n: nat)
    ensures Batch(log + [item], n) == Batch(log, n) + if item.Valid? && item.batch == n then [item.info] else []
  {
    assert (log + [item])[..|log|] == log;
  }

  lemma CheckGrows(self: Self, c: Checked, i: Info, batch: nat)
    ensures var valid := !Outdated(c.cache, i) && !HiddenFrom(self, i);
            && Check(self, c, i, batch).cache == (if valid then c.cache[i.sid := i.version] else c.cache)
            && Batch(Check(self, c, i, batch).log, batch) == Batch(c.log, batch) + if valid then [i] else []
  {
    BatchGrows(c.log, Valid(i, batch), batch);
  }

  lemma CheckAllNext(self: Self, c: Checked, infos: seq<Info>, k: nat, gone: Evictions, batch: nat)
    requires k < |infos|
    ensures CheckAll(self, c, infos[..k + 1], gone, batch) ==
            Check(self, Evict(CheckAll(self, c, infos[..k], gone, batch), gone(k)), infos[k], batch)
  {
    assert infos[..k + 1][..k] == infos[..k];
  }

  /** The loop of SendParticipantUpdate. */
  method CheckUpdates(self: Self, cache: map<Sid, nat>, infos: seq<Info>, gone: Evictions, ghost log: seq<Item>,
      ghost batch: nat)
    returns (updateCache: map<Sid, nat>, validUpdates: seq<Info>)
    requires Batch(log, batch) == []
    ensures var c := CheckAll(self, Checked(cache, log), infos, gone, batch);
            updateCache == c.cache && validUpdates == Batch(c.log, batch)
  {
    updateCache, validUpdates := cache, [];
    ghost var c := Checked(cache, log);
    for k := 0 to |infos|
      invariant c == CheckAll(self, Checked(cache, log), infos[..k], gone, batch)
      invariant updateCache == c.cache && validUpdates == Batch(c.log, batch)
    {
      var i := infos[k];
      CheckAllNext(self, Checked(cache, log), infos, k, gone, batch);
      CheckGrows(self, Evict(c, gone(k)), i, batch);
      BatchGrows(c.log, Evicted(gone(k)), batch);
      updateCache := updateCache - gone(k);
      c := Evict(c, gone(k));
      var isValid := true;
      if i.sid in updateCache && i.version < updateCache[i.sid] {
        isValid := false;
      }
      if i.hidden && i.sid != self.sid {
        isValid := false;
      }
      if isValid {
        updateCache := updateCache[i.sid := i.version];
        validUpdates := validUpdates + [i];
      }
      c := Check(self, c, i, batch);
    }
    assert infos[..|infos|] == infos;
  }

  class Participant {
    const self: Self
    var state: State
    var reconnectResponseSent: bool
    var handshakePending: bool
    var queuedUpdates: seq<Info>
    var updateCache: map<Sid, nat>

    constructor (s: Self)
      ensures self == s && state == Joining && !reconnectResponseSent && !handshakePending
      ensures queuedUpdates == [] && updateCache == map[]
    {
      self := s;
      state, reconnectResponseSent, handshakePending := Joining, false, false;
      queuedUpdates, updateCache := [], map[];
    }

    predicate Ready()
      reads this
    {
      if self.migration then state != Disconnected && reconnectResponseSent else state == Joined || state == Active
    }

    /** The fields are those of this state of the delivery. */
    ghost predicate Matches(d: Delivery)
      reads this
    {
      && state == d.state && reconnectResponseSent == d.reconnectSent && handshakePending == d.handshakePending
      && queuedUpdates == d.queued && updateCache == d.checked.cache
    }

    /** The lock-held part of SendParticipantUpdate: the updates to write, if it comes to that. */
    method SendParticipantUpdate(infos: seq<Info>, gone: Evictions, ghost d: Delivery)
      returns (valid: Option<seq<Info>>)
      requires Matches(d) && Batch(d.checked.log, d.batches) == []
      modifies this`queuedUpdates, this`updateCache
      ensures Matches(Send(self, d, infos, gone))
      ensures valid.Some? <==> Ready() && !handshakePending
      ensures valid.Some? ==> valid.value == Batch(Send(self, d, infos, gone).checked.log, d.batches)
      ensures valid.None? ==> updateCache == old(updateCache)
      ensures queuedUpdates == old(queuedUpdates) + if state != Disconnected && valid.None? then infos else []
    {
      if state == Disconnected {
        return None;
      }
      if !Ready() || handshakePending {
        queuedUpdates := queuedUpdates + infos;
        return None;
      }
      var cache, validUpdates := CheckUpdates(self, updateCache, infos, gone, d.checked.log, d.batches);
      updateCache := cache;
      valid := Some(validUpdates);
    }

    /** SendJoinResponse before the response is written. */
    method JoinTellsOf(others: seq<Info>, gone: Evictions, ghost log: seq<Item>)
      modifies this`updateCache
      ensures updateCache == Tell(Checked(old(updateCache), log), others, gone).cache
    {
      for k := 0 to |others|
        invariant updateCache == Tell(Checked(old(updateCache), log), others[..k], gone).cache
      {
        assert others[..k + 1][..k] == others[..k];
        updateCache := updateCache - gone(k);
        updateCache := updateCache[others[k].sid := others[k].version];
      }
      assert others[..|others|] == others;
    }

    /** And after it: what was queued goes to SendParticipantUpdate. */
    method JoinResponseWritten() returns (queued: seq<Info>)
      modifies this`state, this`queuedUpdates
      ensures forall d: Delivery :: old(Matches(d)) && d.joinWritten && !self.migration ==>
                Matches(Step(self, d, JoinDone))
      ensures queued == old(queuedUpdates) && queuedUpdates == []
      ensures state == if old(state) == Joining then Joined else old(state)
    {
      if state == Joining {
        state := Joined;
      }
      queued := queuedUpdates;
      queuedUpdates := [];
    }

    method FlushQueuedUpdates() returns (queued: seq<Info>)
      modifies this`queuedUpdates
      ensures forall d: Delivery :: old(Matches(d)) ==> Matches(Step(self, d, FlushQueue))
      ensures queued == old(queuedUpdates) && queuedUpdates == []
    {
      queued := queuedUpdates;
      queuedUpdates := [];
    }

    method ReconnectResponseSentAndFlush() returns (queued: seq<Info>)
      modifies this`handshakePending, this`reconnectResponseSent, this`queuedUpdates
      ensures forall d: Delivery :: old(Matches(d)) ==> Matches(Step(self, d, ReconnectSent))
      ensures reconnectResponseSent && !handshakePending
      ensures queued == old(queuedUpdates) && queuedUpdates == []
    {
      handshakePending := false;
      reconnectResponseSent := true;
      queued := queuedUpdates;
      queuedUpdates := [];
    }
  }

  // ---------------------------------------------------------------------------------------
  // The cache remembers the last version checked or told
  // ---------------------------------------------------------------------------------------

  /** What is known of a participant after an item. */
  function KnownAfter(before: Option<nat>, item: Item, s: Sid): Option<nat> {
    match item
    case Evicted(sids) => if s in sids then None else before
    case Told(i) => if i.sid == s then Some(i.version) else before
    case Valid(i, _) => if i.sid == s then Some(i.version) else before
  }

  function LastKnown(log: seq<Item>, s: Sid): Option<nat> {
    if log == [] then None else KnownAfter(LastKnown(log[..|log| - 1], s), log[|log| - 1], s)
  }

  function InCache(cache: map<Sid, nat>, s: Sid): Option<nat> { if s in cache then Some(cache[s]) else None }

  /** An update found valid is no older than the last version known, and not of another hidden participant. */
  ghost predicate Ordered(self: Self, log: seq<Item>) {
    log == [] ||
    (&& Ordered(self, log[..|log| - 1])
     && match log[|log| - 1]
        case Valid(i, _) =>
          var known := LastKnown(log[..|log| - 1], i.sid);
          !HiddenFrom(self, i) && (known.Some? ==> known.value <= i.version)
        case _ => true)
  }

  ghost predicate Faithful(self: Self, c: Checked) {
    Ordered(self, c.log) && forall s :: LastKnown(c.log, s) == InCache(c.cache, s)
  }

  lemma LastKnownNext(log: seq<Item>, item: Item, s: Sid)
    ensures LastKnown(log + [item], s) == KnownAfter(LastKnown(log, s), item, s)
  {
    assert (log + [item])[..|log|] == log;
  }

  lemma EvictIsFaithful(self: Self, c: Checked, gone: set<Sid>)
    requires Faithful(self, c)
    ensures Faithful(self, Evict(c, gone))
  {
    assert (c.log + [Evicted(gone)])[..|c.log|] == c.log;
    forall s
      ensures LastKnown(c.log + [Evicted(gone)], s) == InCache(c.cache - gone, s)
    {
      LastKnownNext(c.log, Evicted(gone), s);
    }
  }

  lemma CheckIsFaithful(self: Self, c: Checked, i: Info, batch: nat)
    requires Faithful(self, c)
    ensures Faithful(self, Check(self, c, i, batch))
  {
    if !Outdated(c.cache, i) && !HiddenFrom(self, i) {
      assert LastKnown(c.log, i.sid) == InCache(c.cache, i.sid);
      assert (c.log + [Valid(i, batch)])[..|c.log|] == c.log;
      forall s
        ensures LastKnown(c.log + [Valid(i, batch)], s) == InCache(c.cache[i.sid := i.version], s)
      {
        LastKnownNext(c.log, Valid(i, batch), s);
      }
    }
  }

  lemma {:induction false} CheckAllIsFaithful(self: Self, c: Checked, infos: seq<Info>, gone: Evictions, batch: nat)
    requires Faithful(self, c)
    ensures Faithful(self, CheckAll(self, c, infos, gone, batch))
  {
    if infos != [] {
      var n := |infos| - 1;
      CheckAllIsFaithful(self, c, infos[..n], gone, batch);
      EvictIsFaithful(self, CheckAll(self, c, infos[..n], gone, batch), gone(n));
      CheckIsFaithful(self, Evict(CheckAll(self, c, infos[..n], gone, batch), gone(n)), infos[n], batch);
    }
  }

  lemma {:induction false} TellIsFaithful(self: Self, c: Checked, infos: seq<Info>, gone: Evictions)
    requires Faithful(self, c)
    ensures Faithful(self, Tell(c, infos, gone))
  {
    if infos != [] {
      var n := |infos| - 1;
      TellIsFaithful(self, c, infos[..n], gone);
      EvictIsFaithful(self, Tell(c, infos[..n], gone), gone(n));
      var before := Evict(Tell(c, infos[..n], gone), gone(n));
      assert (before.log + [Told(infos[n])])[..|before.log|] == before.log;
    }
  }

  lemma SendIsFaithful(self: Self, d: Delivery, infos: seq<Info>, gone: Evictions)
    requires Faithful(self, d.checked)
    ensures Faithful(self, Send(self, d, infos, gone).checked)
  {
    CheckAllIsFaithful(self, d.checked, infos, gone, d.batches);
  }

  lemma StepIsFaithful(self: Self, d: Delivery, e: Event)
    requires Faithful(self, d.checked)
    ensures Faithful(self, Step(self, d, e).checked)
  {
    match e
    case Offer(infos, gone) => SendIsFaithful(self, d.(offered := d.offered + Members(infos)), infos, gone);
    case SendTaken(k, gone) =>
      if k < |d.taken| {
        SendIsFaithful(self, d.(taken := d.taken[..k] + d.taken[k + 1..]), d.taken[k], gone);
      }
    case JoinTells(others, gone) => TellIsFaithful(self, d.checked, others, gone);
    case _ => OtherStepsCheckNothing(self, d, e);
  }

  lemma {:induction false} RunIsFaithful(self: Self, es: seq<Event>)
    ensures Faithful(self, Run(self, es).checked)
  {
    if es != [] {
      RunIsFaithful(self, es[..|es| - 1]);
      StepIsFaithful(self, Run(self, es[..|es| - 1]), es[|es| - 1]);
    }
  }

  /** The item makes the cache forget what it knew of the participant, or know it afresh. */
  predicate Forgets(item: Item, s: Sid) {
    match item
    case Evicted(sids) => s in sids
    case Told(i) => i.sid == s
    case Valid(_, _) => false
  }

  predicate Knows(item: Item, s: Sid) { !item.Evicted? && item.info.sid == s }

  lemma {:induction false} StillKnown(self: Self, log: seq<Item>, i: nat, s: Sid)
    requires Ordered(self, log) && i < |log| && Knows(log[i], s)
    requires forall k :: i < k < |log| ==> !Forgets(log[k], s)
    ensures LastKnown(log, s).Some? && log[i].info.version <= LastKnown(log, s).value
  {
    if i < |log| - 1 {
      StillKnown(self, log[..|log| - 1], i, s);
    }
  }

  lemma {:induction false} OrderedBefore(self: Self, log: seq<Item>, n: nat)
    requires Ordered(self, log) && n <= |log|
    ensures Ordered(self, log[..n])
    decreases |log|
  {
    if n < |log| {
      OrderedBefore(self, log[..|log| - 1], n);
      assert log[..|log| - 1][..n] == log[..n];
    } else {
      assert log[..n] == log;
    }
  }

  /** Updates of one participant are checked in an order of versions that never falls, while it is not evicted. */
  lemma CheckedInOrder(self: Self, log: seq<Item>, i: nat, j: nat, s: Sid)
    requires Ordered(self, log) && i < j < |log| && Knows(log[i], s) && log[j].Valid? && log[j].info.sid == s
    requires forall k :: i < k < j ==> !Forgets(log[k], s)
    ensures log[i].info.version <= log[j].info.version
  {
    OrderedBefore(self, log, j + 1);
    assert log[..j + 1][..j] == log[..j];
    OrderedBefore(self, log, j);
    StillKnown(self, log[..j], i, s);
  }

  // ---------------------------------------------------------------------------------------
  // Readiness and completeness
  // ---------------------------------------------------------------------------------------

  predicate TakenHolds(taken: seq<seq<Info>>, i: Info) { exists k :: 0 <= k < |taken| && i in taken[k] }

  ghost predicate NothingLost(d: Delivery) {
    forall i :: i in d.offered ==> i in d.queued || TakenHolds(d.taken, i) || i in d.judged || i in d.dropped
  }

  /** Nothing is checked before the connection has opened. */
  predicate OpenedFirst(self: Self, d: Delivery) {
    && (d.batches > 0 ==> Opened(self, d))
    && (!self.migration && d.state in {Joined, Active} ==> d.joinWritten)
  }

  /** Only what was checked is written, and once. */
  ghost predicate WrittenOnce(batches: nat, inFlight: set<nat>, written: seq<nat>) {
    && (forall n :: n in inFlight || n in written ==> n < batches)
    && (forall n :: n in inFlight ==> n !in written)
    && (forall i, j :: 0 <= i < j < |written| ==> written[i] != written[j])
  }

  lemma StepOpensFirst(self: Self, d: Delivery, e: Event)
    requires OpenedFirst(self, d)
    ensures OpenedFirst(self, Step(self, d, e))
  {
  }

  /** A send makes one more batch to be written, with the participant ready and its connection open, or none. */
  lemma SendOnBatches(self: Self, d: Delivery, infos: seq<Info>, gone: Evictions)
    ensures var d' := Send(self, d, infos, gone);
            && d'.written == d.written
            && ((d'.inFlight == d.inFlight && d'.batches == d.batches)
                || (IsReady(self, d) && !d.handshakePending
                    && d'.inFlight == d.inFlight + {d.batches} && d'.batches == d.batches + 1))
  {
  }

  lemma OtherStepsKeepBatches(self: Self, d: Delivery, e: Event)
    requires !e.Offer? && !e.SendTaken? && !e.WriteBatch?
    ensures var d' := Step(self, d, e); d'.written == d.written && d'.inFlight == d.inFlight && d'.batches == d.batches
  {
  }

  /** A step makes one more batch, to be written, or writes one, or touches none. */
  lemma StepOnBatches(self: Self, d: Delivery, e: Event)
    ensures var d' := Step(self, d, e);
            || (d'.written == d.written && d'.inFlight == d.inFlight && d'.batches == d.batches)
            || (d'.written == d.written && d'.inFlight == d.inFlight + {d.batches} && d'.batches == d.batches + 1
                && IsReady(self, d) && !d.handshakePending)
            || (e.WriteBatch? && e.n in d.inFlight && d'.inFlight == d.inFlight - {e.n} && d'.batches == d.batches
                && d'.written == if e.ok then d.written + [e.n] else d.written)
  {
    match e
    case Offer(infos, gone) => SendOnBatches(self, d.(offered := d.offered + Members(infos)), infos, gone);
    case SendTaken(k, gone) =>
      if k < |d.taken| {
        SendOnBatches(self, d.(taken := d.taken[..k] + d.taken[k + 1..]), d.taken[k], gone);
      }
    case WriteBatch(n, ok) =>
    case _ => OtherStepsKeepBatches(self, d, e);
  }

  lemma StepWritesOnce(self: Self, d: Delivery, e: Event)
    requires WrittenOnce(d.batches, d.inFlight, d.written)
    ensures var d' := Step(self, d, e); WrittenOnce(d'.batches, d'.inFlight, d'.written)
  {
    StepOnBatches(self, d, e);
  }

  /** Whatever is queued waits for something: the end, readiness, the handshake, or a flush that is due. */
  predicate WaitsForFlush(self: Self, d: Delivery) {
    d.queued != [] ==> d.state == Disconnected || !IsReady(self, d) || d.handshakePending || d.owed
  }

  lemma StepWaitsForFlush(self: Self, d: Delivery, e: Event)
    requires WaitsForFlush(self, d)
    ensures WaitsForFlush(self, Step(self, d, e))
  {
  }

  lemma TakeLosesNothing(d: Delivery)
    requires NothingLost(d)
    ensures NothingLost(TakeQueue(d))
  {
    var d' := TakeQueue(d);
    forall i | i in d'.offered
      ensures TakenHolds(d'.taken, i) || i in d'.judged || i in d'.dropped
    {
      if i in d.queued {
        assert i in d'.taken[|d.taken|];
      } else if TakenHolds(d.taken, i) {
        var k :| 0 <= k < |d.taken| && i in d.taken[k];
        assert i in d'.taken[k];
      }
    }
  }

  lemma SendLosesNothing(self: Self, d: Delivery, infos: seq<Info>, gone: Evictions)
    requires forall i ::
        i in d.offered ==> i in infos || i in d.queued || TakenHolds(d.taken, i) || i in d.judged || i in d.dropped
    ensures NothingLost(Send(self, d, infos, gone))
  {
    assert forall i :: i in infos ==> i in Members(infos);
  }

  lemma StepLosesNothing(self: Self, d: Delivery, e: Event)
    requires NothingLost(d)
    ensures NothingLost(Step(self, d, e))
  {
    match e
    case Offer(infos, gone) => SendLosesNothing(self, d.(offered := d.offered + Members(infos)), infos, gone);
    case SendTaken(k, gone) => {
      if k < |d.taken| {
        var rest := d.taken[..k] + d.taken[k + 1..];
        forall i | i in d.offered && TakenHolds(d.taken, i) && i !in d.taken[k]
          ensures TakenHolds(rest, i)
        {
          var m :| 0 <= m < |d.taken| && i in d.taken[m];
          assert i in rest[if m < k then m else m - 1];
        }
        SendLosesNothing(self, d.(taken := rest), d.taken[k], gone);
      }
    }
    case JoinDone => TakeLosesNothing(d.(state := if d.state == Joining then Joined else d.state));
    case ReconnectSent => TakeLosesNothing(d.(reconnectSent := true, handshakePending := false));
    case FlushQueue => TakeLosesNothing(d);
    case _ =>
  }

  /**
   Over any run: nothing is written before the Join or Reconnect response, every batch is written at most
   once, and no update offered is lost between queue, flush and check while the participant is there.
   */
  lemma {:induction false} OpensFirstLosesNothing(self: Self, es: seq<Event>)
    ensures var d := Run(self, es);
            OpenedFirst(self, d) && WrittenOnce(d.batches, d.inFlight, d.written) && NothingLost(d)
    ensures Run(self, es).written != [] ==> Opened(self, Run(self, es))
  {
    if es != [] {
      OpensFirstLosesNothing(self, es[..|es| - 1]);
      StepOpensFirst(self, Run(self, es[..|es| - 1]), es[|es| - 1]);
      StepWritesOnce(self, Run(self, es[..|es| - 1]), es[|es| - 1]);
      StepLosesNothing(self, Run(self, es[..|es| - 1]), es[|es| - 1]);
    }
    assert Run(self, es).written != [] ==> Run(self, es).written[0] in Run(self, es).written;
  }

  /** The k-th event checked batch `n`, with the participant ready and its connection open. */
  predicate CheckedReady(self: Self, es: seq<Event>, k: nat, n: nat)
    requires k < |es|
  {
    var d := Run(self, es[..k]);
    IsReady(self, d) && !d.handshakePending && d.batches == n && Run(self, es[..k + 1]).batches == n + 1
  }

  lemma CheckedReadyBefore(self: Self, es: seq<Event>, m: nat, k: nat, n: nat)
    requires k < m <= |es| && CheckedReady(self, es[..m], k, n)
    ensures CheckedReady(self, es, k, n)
  {
    assert es[..m][..k] == es[..k] && es[..m][..k + 1] == es[..k + 1];
  }

  /** Every batch of a run, and so every batch written, was checked by an event that found the participant ready. */
  lemma {:induction false} EveryBatchWasReady(self: Self, es: seq<Event>, n: nat) returns (k: nat)
    requires n < Run(self, es).batches
    ensures k < |es| && CheckedReady(self, es, k, n)
  {
    var init := es[..|es| - 1];
    StepOnBatches(self, Run(self, init), es[|es| - 1]);
    assert es[..|es|] == es;
    if n < Run(self, init).batches {
      k := EveryBatchWasReady(self, init, n);
      CheckedReadyBefore(self, es, |init|, k, n);
    } else {
      k := |init|;
    }
  }

  /** Nothing is written that was not checked ready. */
  lemma WrittenWasReady(self: Self, es: seq<Event>, n: nat)
    requires n in Run(self, es).written
    ensures exists k :: 0 <= k < |es| && CheckedReady(self, es, k, n)
  {
    OpensFirstLosesNothing(self, es);
    var k := EveryBatchWasReady(self, es, n);
  }

  lemma {:induction false} ValidIsVisible(self: Self, log: seq<Item>, i: Info, batch: nat)
    requires Ordered(self, log) && Valid(i, batch) in log
    ensures !HiddenFrom(self, i)
  {
    assert log == log[..|log| - 1] + [log[|log| - 1]];
    if log[|log| - 1] != Valid(i, batch) {
      ValidIsVisible(self, log[..|log| - 1], i, batch);
    }
  }

  lemma {:induction false} BatchMembers(log: seq<Item>, n: nat, i: Info)
    ensures i in Batch(log, n) <==> Valid(i, n) in log
  {
    if log != [] {
      BatchMembers(log[..|log| - 1], n, i);
      assert log == log[..|log| - 1] + [log[|log| - 1]];
    }
  }

  /** No batch holds an update about another participant who is hidden. */
  lemma NoHiddenOthers(self: Self, es: seq<Event>, n: nat, i: Info)
    requires i in Batch(Run(self, es).checked.log, n)
    ensures i.hidden ==> i.sid == self.sid
  {
    RunIsFaithful(self, es);
    BatchMembers(Run(self, es).checked.log, n, i);
    ValidIsVisible(self, Run(self, es).checked.log, i, n);
  }

  // ---------------------------------------------------------------------------------------
  // The order of writes
  // ---------------------------------------------------------------------------------------

  predicate WroteBefore(written: seq<nat>, m: nat, n: nat) {
    exists a, b :: 0 <= a < b < |written| && written[a] == m && written[b] == n
  }

  /** The i-th and the j-th item are updates about `s` that are written in this order. */
  predicate Precedes(written: seq<nat>, log: seq<Item>, i: nat, j: nat, s: Sid)
    requires i < |log| && j < |log|
  {
    && log[i].Valid? && log[j].Valid? && log[i].info.sid == s && log[j].info.sid == s
    && (WroteBefore(written, log[i].batch, log[j].batch)
        || (log[i].batch == log[j].batch && log[i].batch in written && i < j))
  }

  /** Versions about `s` never fall in the order of writes. */
  ghost predicate WrittenInOrder(written: seq<nat>, log: seq<Item>, s: Sid) {
    forall i, j ::
        0 <= i < |log| && 0 <= j < |log| && Precedes(written, log, i, j, s) ==>
        log[i].info.version <= log[j].info.version
  }

  ghost predicate KeptKnown(log: seq<Item>, s: Sid) {
    forall k :: 0 <= k < |log| && log[k].Evicted? ==> s !in log[k].sids
  }

  ghost predicate ToldFirst(log: seq<Item>) { forall i, j :: 0 <= i < j < |log| && log[i].Valid? ==> !log[j].Told? }

  lemma LaterIsNewer(self: Self, log: seq<Item>, i: nat, j: nat, s: Sid)
    requires Ordered(self, log) && KeptKnown(log, s) && ToldFirst(log)
    requires i < j < |log| && log[i].Valid? && log[j].Valid? && log[i].info.sid == s && log[j].info.sid == s
    ensures log[i].info.version <= log[j].info.version
  {
    CheckedInOrder(self, log, i, j, s);
  }

  /** The Join response tells of the others before any update is checked. */
  lemma {:induction false} CheckAllTellsNothing(self: Self, c: Checked, infos: seq<Info>, gone: Evictions, batch: nat)
    requires ToldFirst(c.log)
    ensures ToldFirst(CheckAll(self, c, infos, gone, batch).log)
  {
    if infos != [] {
      CheckAllTellsNothing(self, c, infos[..|infos| - 1], gone, batch);
    }
  }

  ghost predicate NoneValid(log: seq<Item>) { forall k :: 0 <= k < |log| ==> !log[k].Valid? }

  lemma {:induction false} TellChecksNothing(c: Checked, infos: seq<Info>, gone: Evictions)
    requires NoneValid(c.log)
    ensures NoneValid(Tell(c, infos, gone).log)
  {
    if infos != [] {
      TellChecksNothing(c, infos[..|infos| - 1], gone);
    }
  }

  /** Until a participant that does not migrate has joined, nothing is checked. */
  ghost predicate TellsFirst(self: Self, state: State, log: seq<Item>) {
    ToldFirst(log) && (!self.migration && state == Joining ==> NoneValid(log))
  }

  lemma SendTellsFirst(self: Self, d: Delivery, infos: seq<Info>, gone: Evictions)
    requires TellsFirst(self, d.state, d.checked.log)
    ensures TellsFirst(self, d.state, Send(self, d, infos, gone).checked.log)
  {
    CheckAllTellsNothing(self, d.checked, infos, gone, d.batches);
  }

  lemma OtherStepsCheckNothing(self: Self, d: Delivery, e: Event)
    requires !e.Offer? && !e.SendTaken? && !e.JoinTells?
    ensures Step(self, d, e).checked == d.checked && (Step(self, d, e).state == Joining ==> d.state == Joining)
  {
  }

  lemma StepTellsFirst(self: Self, d: Delivery, e: Event)
    requires TellsFirst(self, d.state, d.checked.log)
    ensures TellsFirst(self, Step(self, d, e).state, Step(self, d, e).checked.log)
  {
    match e
    case Offer(infos, gone) => SendTellsFirst(self, d.(offered := d.offered + Members(infos)), infos, gone);
    case SendTaken(k, gone) =>
      if k < |d.taken| {
        SendTellsFirst(self, d.(taken := d.taken[..k] + d.taken[k + 1..]), d.taken[k], gone);
      }
    case JoinTells(others, gone) =>
      if !self.migration && d.state == Joining {
        TellChecksNothing(d.checked, others, gone);
      }
    case _ => OtherStepsCheckNothing(self, d, e);
  }

  lemma {:induction false} RunTellsFirst(self: Self, es: seq<Event>)
    ensures TellsFirst(self, Run(self, es).state, Run(self, es).checked.log)
  {
    if es != [] {
      RunTellsFirst(self, es[..|es| - 1]);
      StepTellsFirst(self, Run(self, es[..|es| - 1]), es[|es| - 1]);
    }
  }

  /** The batches are numbered as they are checked. */
  ghost predicate Numbered(log: seq<Item>, batches: nat) {
    && (forall i :: 0 <= i < |log| && log[i].Valid? ==> log[i].batch < batches)
    && (forall i, j :: 0 <= i < j < |log| && log[i].Valid? && log[j].Valid? ==> log[i].batch <= log[j].batch)
  }

  lemma {:induction false} CheckAllNumbers(self: Self, c: Checked, infos: seq<Info>, gone: Evictions, batch: nat)
    requires Numbered(c.log, batch + 1)
    ensures Numbered(CheckAll(self, c, infos, gone, batch).log, batch + 1)
  {
    if infos != [] {
      CheckAllNumbers(self, c, infos[..|infos| - 1], gone, batch);
    }
  }

  lemma {:induction false} TellNumbers(c: Checked, infos: seq<Info>, gone: Evictions, batches: nat)
    requires Numbered(c.log, batches)
    ensures Numbered(Tell(c, infos, gone).log, batches)
  {
    if infos != [] {
      TellNumbers(c, infos[..|infos| - 1], gone, batches);
    }
  }

  lemma NumberedOneMore(log: seq<Item>, batches: nat)
    requires Numbered(log, batches)
    ensures Numbered(log, batches + 1)
  {
  }

  /** A send leaves the history and the number of batches as they are, or checks one more batch. */
  lemma SendChecks(self: Self, d: Delivery, infos: seq<Info>, gone: Evictions)
    ensures var d' := Send(self, d, infos, gone);
            || (d'.checked == d.checked && d'.batches == d.batches)
            || (d'.checked == CheckAll(self, d.checked, infos, gone, d.batches) && d'.batches == d.batches + 1)
  {
  }

  lemma SendNumbers(self: Self, d: Delivery, infos: seq<Info>, gone: Evictions)
    requires Numbered(d.checked.log, d.batches)
    ensures var d' := Send(self, d, infos, gone); Numbered(d'.checked.log, d'.batches)
  {
    NumberedOneMore(d.checked.log, d.batches);
    CheckAllNumbers(self, d.checked, infos, gone, d.batches);
    SendChecks(self, d, infos, gone);
  }

  lemma StepNumbers(self: Self, d: Delivery, e: Event)
    requires Numbered(d.checked.log, d.batches)
    ensures var d' := Step(self, d, e); Numbered(d'.checked.log, d'.batches)
  {
    match e
    case Offer(infos, gone) => SendNumbers(self, d.(offered := d.offered + Members(infos)), infos, gone);
    case SendTaken(k, gone) =>
      if k < |d.taken| {
        SendNumbers(self, d.(taken := d.taken[..k] + d.taken[k + 1..]), d.taken[k], gone);
      }
    case JoinTells(others, gone) => TellNumbers(d.checked, others, gone, d.batches);
    case _ =>
  }

  lemma {:induction false} RunNumbers(self: Self, es: seq<Event>)
    ensures Numbered(Run(self, es).checked.log, Run(self, es).batches)
  {
    if es != [] {
      RunNumbers(self, es[..|es| - 1]);
      StepNumbers(self, Run(self, es[..|es| - 1]), es[|es| - 1]);
    }
  }

  /** Nothing is taken back from the history of the cache. */
  lemma {:induction false} CheckAllExtends(self: Self, c: Checked, infos: seq<Info>, gone: Evictions, batch: nat)
    ensures c.log <= CheckAll(self, c, infos, gone, batch).log
    ensures forall k :: |c.log| <= k < |CheckAll(self, c, infos, gone, batch).log| ==>
              var item := CheckAll(self, c, infos, gone, batch).log[k]; item.Valid? ==> item.batch == batch
  {
    if infos != [] {
      CheckAllExtends(self, c, infos[..|infos| - 1], gone, batch);
    }
  }

  lemma {:induction false} TellExtends(c: Checked, infos: seq<Info>, gone: Evictions)
    ensures c.log <= Tell(c, infos, gone).log
    ensures forall k :: |c.log| <= k < |Tell(c, infos, gone).log| ==> !Tell(c, infos, gone).log[k].Valid?
  {
    if infos != [] {
      TellExtends(c, infos[..|infos| - 1], gone);
    }
  }

  /** A longer history, in which what was added belongs to batch `n`. */
  ghost predicate Extends(log: seq<Item>, log': seq<Item>, n: nat) {
    log <= log' && forall k :: |log| <= k < |log'| && log'[k].Valid? ==> log'[k].batch == n
  }

  lemma SendExtends(self: Self, d: Delivery, infos: seq<Info>, gone: Evictions)
    ensures Extends(d.checked.log, Send(self, d, infos, gone).checked.log, d.batches)
    ensures Send(self, d, infos, gone).written == d.written
  {
    CheckAllExtends(self, d.checked, infos, gone, d.batches);
  }

  lemma StepExtends(self: Self, d: Delivery, e: Event)
    ensures Extends(d.checked.log, Step(self, d, e).checked.log, d.batches)
    ensures !e.WriteBatch? ==> Step(self, d, e).written == d.written
  {
    match e
    case Offer(infos, gone) => SendExtends(self, d.(offered := d.offered + Members(infos)), infos, gone);
    case SendTaken(k, gone) =>
      if k < |d.taken| {
        SendExtends(self, d.(taken := d.taken[..k] + d.taken[k + 1..]), d.taken[k], gone);
      }
    case JoinTells(others, gone) => TellExtends(d.checked, others, gone);
    case _ => OtherStepsCheckNothing(self, d, e);
  }

  /** Checking a batch that has not been written cannot disturb the order of what has. */
  lemma OrderSurvivesChecks(written: seq<nat>, log: seq<Item>, log': seq<Item>, n: nat, s: Sid)
    requires Extends(log, log', n) && n !in written
    ensures WrittenInOrder(written, log', s) <==> WrittenInOrder(written, log, s)
  {
    if WrittenInOrder(written, log, s) {
      forall i, j | 0 <= i < |log'| && 0 <= j < |log'| && Precedes(written, log', i, j, s)
        ensures log'[i].info.version <= log'[j].info.version
      {
        assert log'[i].batch in written && log'[j].batch in written;
        assert log[i] == log'[i] && log[j] == log'[j];
        assert Precedes(written, log, i, j, s);
      }
    } else {
      var i, j :| 0 <= i < |log| && 0 <= j < |log| && Precedes(written, log, i, j, s)
          && log[i].info.version > log[j].info.version;
      assert log'[i] == log[i] && log'[j] == log[j];
      assert Precedes(written, log', i, j, s);
    }
  }

  /**
   The i-th item is an update about `s` in batch `n`, the j-th one with a newer version in a batch written
   already.
   */
  predicate Late(written: seq<nat>, log: seq<Item>, n: nat, i: nat, j: nat, s: Sid)
    requires i < |log| && j < |log|
  {
    && log[i].Valid? && log[i].info.sid == s && log[i].batch == n
    && log[j].Valid? && log[j].info.sid == s && log[j].batch in written
    && log[i].info.version < log[j].info.version
  }

  /** A batch about to be written holds an older version about `s` than one written before. */
  ghost predicate IsLate(written: seq<nat>, log: seq<Item>, n: nat, s: Sid) {
    exists i, j :: 0 <= i < |log| && 0 <= j < |log| && Late(written, log, n, i, j, s)
  }

  ghost predicate LateWrite(d: Delivery, e: Event, s: Sid) {
    e.WriteBatch? && e.ok && e.n in d.inFlight && IsLate(d.written, d.checked.log, e.n, s)
  }

  lemma PrecedesBefore(written: seq<nat>, log: seq<Item>, n: nat, i: nat, j: nat, s: Sid)
    requires i < |log| && j < |log| && n !in written
    ensures Precedes(written, log, i, j, s) ==> Precedes(written + [n], log, i, j, s)
    ensures Precedes(written + [n], log, i, j, s) ==>
              || Precedes(written, log, i, j, s)
              || (log[j].batch == n && log[i].batch in written)
              || (log[i].batch == log[j].batch == n && i < j)
  {
    var w := written + [n];
    if log[i].Valid? && log[j].Valid? {
      if WroteBefore(written, log[i].batch, log[j].batch) {
        var a, b :| 0 <= a < b < |written| && written[a] == log[i].batch && written[b] == log[j].batch;
        assert w[a] == log[i].batch && w[b] == log[j].batch;
      }
      if WroteBefore(w, log[i].batch, log[j].batch) {
        var a, b :| 0 <= a < b < |w| && w[a] == log[i].batch && w[b] == log[j].batch;
        assert w[a] == written[a];
        assert b < |written| ==> w[b] == written[b];
      }
    }
  }

  /** Writing a batch keeps the order exactly if it is not late. */
  lemma WriteKeepsOrderIff(self: Self, written: seq<nat>, log: seq<Item>, n: nat, s: Sid)
    requires Ordered(self, log) && KeptKnown(log, s) && ToldFirst(log) && n !in written
    ensures WrittenInOrder(written + [n], log, s) <==> WrittenInOrder(written, log, s) && !IsLate(written, log, n, s)
  {
    var w := written + [n];
    if WrittenInOrder(written, log, s) && !IsLate(written, log, n, s) {
      forall i, j | 0 <= i < |log| && 0 <= j < |log| && Precedes(w, log, i, j, s)
        ensures log[i].info.version <= log[j].info.version
      {
        PrecedesBefore(written, log, n, i, j, s);
        if log[j].batch == n && log[i].batch in written {
          assert !Late(written, log, n, j, i, s);
        } else if log[i].batch == log[j].batch == n {
          LaterIsNewer(self, log, i, j, s);
        }
      }
    } else if IsLate(written, log, n, s) {
      var i, j :| 0 <= i < |log| && 0 <= j < |log| && Late(written, log, n, i, j, s);
      var a :| 0 <= a < |written| && written[a] == log[j].batch;
      assert w[a] == log[j].batch && w[|written|] == n;
      assert Precedes(w, log, j, i, s);
    } else {
      var i, j :| 0 <= i < |log| && 0 <= j < |log| && Precedes(written, log, i, j, s)
          && log[i].info.version > log[j].info.version;
      PrecedesBefore(written, log, n, i, j, s);
    }
  }

  ghost predicate NoneLate(self: Self, es: seq<Event>, s: Sid) {
    es == [] || (NoneLate(self, es[..|es| - 1], s) && !LateWrite(Run(self, es[..|es| - 1]), es[|es| - 1], s))
  }

  lemma StepOrderIff(self: Self, d: Delivery, e: Event, s: Sid)
    requires Ordered(self, d.checked.log) && KeptKnown(d.checked.log, s) && ToldFirst(d.checked.log)
    requires WrittenOnce(d.batches, d.inFlight, d.written)
    ensures WrittenInOrder(Step(self, d, e).written, Step(self, d, e).checked.log, s)
            <==> WrittenInOrder(d.written, d.checked.log, s) && !LateWrite(d, e, s)
  {
    var d' := Step(self, d, e);
    if e.WriteBatch? {
      if e.ok && e.n in d.inFlight {
        WriteKeepsOrderIff(self, d.written, d.checked.log, e.n, s);
      }
    } else {
      StepExtends(self, d, e);
      OrderSurvivesChecks(d.written, d.checked.log, d'.checked.log, d.batches, s);
    }
  }

  /**
   Updates about a participant that stays in the cache are written in an order of versions that never falls,
   exactly if no write of the run was late: none wrote an older version than had been written before.
   */
  lemma {:induction false} WrittenInOrderIffNoneLate(self: Self, es: seq<Event>, s: Sid)
    requires KeptKnown(Run(self, es).checked.log, s)
    ensures WrittenInOrder(Run(self, es).written, Run(self, es).checked.log, s) <==> NoneLate(self, es, s)
  {
    if es != [] {
      var init, e := es[..|es| - 1], es[|es| - 1];
      var d := Run(self, init);
      StepExtends(self, d, e);
      KnownBefore(d.checked.log, Run(self, es).checked.log, s);
      WrittenInOrderIffNoneLate(self, init, s);
      RunIsFaithful(self, init);
      RunTellsFirst(self, init);
      OpensFirstLosesNothing(self, init);
      StepOrderIff(self, d, e, s);
    }
  }

  lemma KnownBefore(log: seq<Item>, log': seq<Item>, s: Sid)
    requires log <= log' && KeptKnown(log', s)
    ensures KeptKnown(log, s)
  {
    forall k | 0 <= k < |log| && log[k].Evicted?
      ensures s !in log[k].sids
    {
      assert log'[k] == log[k];
    }
  }

  ghost predicate Rising(written: seq<nat>) { forall a, b :: 0 <= a < b < |written| ==> written[a] < written[b] }

  lemma InTurn(written: seq<nat>, log: seq<Item>, batches: nat, i: nat, j: nat, s: Sid)
    requires Rising(written)
    requires Numbered(log, batches) && i < |log| && j < |log| && Precedes(written, log, i, j, s)
    ensures i < j
  {
    if WroteBefore(written, log[i].batch, log[j].batch) {
      var a, b :| 0 <= a < b < |written| && written[a] == log[i].batch && written[b] == log[j].batch;
    }
  }

  /** If batches are written in the order they were checked, versions about a participant never fall. */
  lemma WritesInTurnAreInOrder(self: Self, es: seq<Event>, s: Sid)
    requires Rising(Run(self, es).written)
    requires KeptKnown(Run(self, es).checked.log, s)
    ensures WrittenInOrder(Run(self, es).written, Run(self, es).checked.log, s)
  {
    var w, log := Run(self, es).written, Run(self, es).checked.log;
    RunNumbers(self, es);
    RunIsFaithful(self, es);
    RunTellsFirst(self, es);
    forall i, j | 0 <= i < |log| && 0 <= j < |log| && Precedes(w, log, i, j, s)
      ensures log[i].info.version <= log[j].info.version
    {
      InTurn(w, log, Run(self, es).batches, i, j, s);
      LaterIsNewer(self, log, i, j, s);
    }
  }

  lemma RunThen(self: Self, es: seq<Event>, e: Event)
    ensures Run(self, es + [e]) == Step(self, Run(self, es), e)
  {
    assert (es + [e])[..|es|] == es;
  }

  lemma CheckOne(self: Self, c: Checked, i: Info, gone: Evictions, batch: nat)
    ensures CheckAll(self, c, [i], gone, batch) == Check(self, Evict(c, gone(0)), i, batch)
  {
    assert [i][..0] == [];
  }

  function TwoChecked(first: Info, second: Info, gone: Evictions): seq<Event> {
    [] + [JoinWritten] + [JoinDone] + [Offer([first], gone)] + [Offer([second], gone)]
  }

  lemma TwoAreChecked(self: Self, first: Info, second: Info, gone: Evictions)
    requires !self.migration && !first.hidden && !second.hidden
    requires first.sid == second.sid && first.version <= second.version && forall k :: gone(k) == {}
    ensures var d := Run(self, TwoChecked(first, second, gone));
            d.checked.log == [Evicted({}), Valid(first, 0), Evicted({}), Valid(second, 1)] && d.inFlight == {0, 1}
                && d.written == []
  {
    var e2 := [] + [JoinWritten] + [JoinDone];
    RunThen(self, [], JoinWritten);
    RunThen(self, [] + [JoinWritten], JoinDone);
    RunThen(self, e2, Offer([first], gone));
    RunThen(self, e2 + [Offer([first], gone)], Offer([second], gone));
    var d2 := Run(self, e2);
    CheckOne(self, d2.checked, first, gone, 0);
    var d3 := Run(self, e2 + [Offer([first], gone)]);
    assert d3.checked == Checked(map[first.sid := first.version], [Evicted({}), Valid(first, 0)]);
    CheckOne(self, d3.checked, second, gone, 1);
  }

  /** As batches are written without the lock, a newer update can reach the client before an older one. */
  lemma WritesCanOvertake(self: Self, first: Info, second: Info, gone: Evictions)
    requires !self.migration && !first.hidden && !second.hidden
    requires first.sid == second.sid && first.version < second.version && forall k :: gone(k) == {}
    ensures var d := Run(self, TwoChecked(first, second, gone) + [WriteBatch(1, true)] + [WriteBatch(0, true)]);
            d.written == [1, 0] && !WrittenInOrder(d.written, d.checked.log, first.sid)
  {
    var es := TwoChecked(first, second, gone);
    TwoAreChecked(self, first, second, gone);
    RunThen(self, es, WriteBatch(1, true));
    RunThen(self, es + [WriteBatch(1, true)], WriteBatch(0, true));
    var d := Run(self, es + [WriteBatch(1, true)] + [WriteBatch(0, true)]);
    assert d.written == [1, 0];
    assert d.written[0] == 1 && d.written[1] == 0;
    assert WroteBefore(d.written, 1, 0);
    assert Precedes(d.written, d.checked.log, 3, 1, first.sid);
  }

  // ---------------------------------------------------------------------------------------
  // When the participant is there, and open for updates
  // ---------------------------------------------------------------------------------------

  ghost predicate Gone(es: seq<Event>) { exists k :: 0 <= k < |es| && es[k].Disconnect? }

  ghost predicate Written(es: seq<Event>) { exists k :: 0 <= k < |es| && es[k].JoinWritten? }

  /** The Join response was written, and after that what follows it was done. */
  ghost predicate JoinSent(es: seq<Event>) {
    exists j, k :: 0 <= j < k < |es| && es[j].JoinWritten? && es[k].JoinDone?
  }

  ghost predicate Reconnected(es: seq<Event>) { exists k :: 0 <= k < |es| && es[k].ReconnectSent? }

  /** These of one event more. */
  lemma EventsNext(es: seq<Event>, e: Event)
    ensures Gone(es + [e]) <==> Gone(es) || e.Disconnect?
    ensures Written(es + [e]) <==> Written(es) || e.JoinWritten?
    ensures JoinSent(es + [e]) <==> JoinSent(es) || (Written(es) && e.JoinDone?)
    ensures Reconnected(es + [e]) <==> Reconnected(es) || e.ReconnectSent?
  {
    var es' := es + [e];
    assert es'[|es|] == e && forall k :: 0 <= k < |es| ==> es'[k] == es[k];
    if Written(es) && e.JoinDone? {
      var j :| 0 <= j < |es| && es[j].JoinWritten?;
      assert es'[j].JoinWritten? && es'[|es|].JoinDone?;
    }
    if JoinSent(es) {
      var j, k :| 0 <= j < k < |es| && es[j].JoinWritten? && es[k].JoinDone?;
      assert es'[j].JoinWritten? && es'[k].JoinDone?;
    }
  }

  lemma SendKeepsState(self: Self, d: Delivery, infos: seq<Info>, gone: Evictions)
    ensures var d' := Send(self, d, infos, gone);
            && d'.state == d.state && d'.reconnectSent == d.reconnectSent && d'.joinWritten == d.joinWritten
            && d'.offered == d.offered
  {
  }

  lemma StepState(self: Self, d: Delivery, e: Event)
    ensures var d' := Step(self, d, e);
            && (d'.state == Disconnected <==> d.state == Disconnected || e.Disconnect?)
            && (d'.reconnectSent <==> d.reconnectSent || e.ReconnectSent?)
            && (!self.migration ==> (d'.joinWritten <==> d.joinWritten || e.JoinWritten?))
            && (!self.migration && d'.state != Disconnected ==>
                  (d'.state != Joining <==> d.state != Joining || (e.JoinDone? && d.joinWritten)))
  {
    match e
    case Offer(infos, gone) => SendKeepsState(self, d.(offered := d.offered + Members(infos)), infos, gone);
    case SendTaken(k, gone) =>
      if k < |d.taken| {
        SendKeepsState(self, d.(taken := d.taken[..k] + d.taken[k + 1..]), d.taken[k], gone);
      }
    case _ =>
  }

  /** The state of a participant is that of what has happened. */
  lemma {:induction false} StateIs(self: Self, es: seq<Event>)
    ensures var d := Run(self, es);
            && (d.state == Disconnected <==> Gone(es)) && (d.reconnectSent <==> Reconnected(es))
            && (!self.migration ==> (d.joinWritten <==> Written(es)))
            && (!self.migration && !Gone(es) ==> (d.state != Joining <==> JoinSent(es)))
  {
    if es != [] {
      var before, e := es[..|es| - 1], es[|es| - 1];
      StateIs(self, before);
      StepState(self, Run(self, before), e);
      EventsNext(before, e);
      assert es == before + [e];
    }
  }

  /** Open for updates: there, and told of the room by the response its connection opens with. */
  ghost predicate OpenFor(self: Self, es: seq<Event>) {
    !Gone(es) && if self.migration then Reconnected(es) else JoinSent(es)
  }

  /**
   In every run a participant is ready exactly if it is not gone and its Join response, or where it migrates
   its ReconnectResponse, was sent.
   */
  lemma ReadyIffOpen(self: Self, es: seq<Event>)
    ensures IsReady(self, Run(self, es)) <==> OpenFor(self, es)
  {
    StateIs(self, es);
  }

  lemma {:induction false} RunWaitsForFlush(self: Self, es: seq<Event>)
    ensures WaitsForFlush(self, Run(self, es))
  {
    if es != [] {
      RunWaitsForFlush(self, es[..|es| - 1]);
      StepWaitsForFlush(self, Run(self, es[..|es| - 1]), es[|es| - 1]);
    }
  }

  /** The k-th event began a handshake, and none since has ended it. */
  ghost predicate HandshakeSince(es: seq<Event>, k: int) {
    && 0 <= k < |es| && es[k] == SetHandshake(true)
    && forall j :: k < j < |es| ==> es[j] != SetHandshake(false) && es[j] != ReconnectSent
  }

  lemma HandshakeNext(es: seq<Event>, e: Event)
    ensures (exists k :: HandshakeSince(es + [e], k)) <==>
            e == SetHandshake(true) ||
            ((exists k :: HandshakeSince(es, k)) && e != SetHandshake(false) && e != ReconnectSent)
  {
    var es' := es + [e];
    assert es'[|es|] == e && forall k :: 0 <= k < |es| ==> es'[k] == es[k];
    if e == SetHandshake(true) {
      assert HandshakeSince(es', |es|);
    }
    if e != SetHandshake(false) && e != ReconnectSent {
      forall k | HandshakeSince(es, k)
        ensures HandshakeSince(es', k)
      {
      }
    }
    forall k | HandshakeSince(es', k)
      ensures k == |es| || (HandshakeSince(es, k) && e != SetHandshake(false) && e != ReconnectSent)
    {
    }
  }

  lemma StepHandshake(self: Self, d: Delivery, e: Event)
    ensures Step(self, d, e).handshakePending <==>
            e == SetHandshake(true) || (d.handshakePending && e != SetHandshake(false) && e != ReconnectSent)
  {
  }

  /** The handshake is pending exactly if one was begun and has not ended. */
  lemma {:induction false} HandshakeIs(self: Self, es: seq<Event>)
    ensures Run(self, es).handshakePending <==> exists k :: HandshakeSince(es, k)
  {
    if es != [] {
      var before, e := es[..|es| - 1], es[|es| - 1];
      HandshakeIs(self, before);
      HandshakeNext(before, e);
      StepHandshake(self, Run(self, before), e);
      assert es == before + [e];
    }
  }

  /**
   Over any run: once the participant is open for updates, they stay queued only while the handshake is
   pending or the flush that its end calls for has yet to run.
   */
  lemma NothingStaysQueued(self: Self, es: seq<Event>)
    requires OpenFor(self, es) && !Run(self, es).handshakePending && !Run(self, es).owed
    ensures Run(self, es).queued == []
  {
    RunWaitsForFlush(self, es);
    StateIs(self, es);
  }

  // ---------------------------------------------------------------------------------------
  // Nothing offered is lost
  // ---------------------------------------------------------------------------------------

  ghost predicate Offered(es: seq<Event>, i: Info) { exists k :: 0 <= k < |es| && es[k].Offer? && i in es[k].infos }

  lemma StepOffers(self: Self, d: Delivery, e: Event)
    ensures Step(self, d, e).offered == d.offered + if e.Offer? then Members(e.infos) else {}
  {
    match e
    case Offer(infos, gone) => SendKeepsState(self, d.(offered := d.offered + Members(infos)), infos, gone);
    case SendTaken(k, gone) =>
      if k < |d.taken| {
        SendKeepsState(self, d.(taken := d.taken[..k] + d.taken[k + 1..]), d.taken[k], gone);
      }
    case _ =>
  }

  lemma OfferedNext(es: seq<Event>, e: Event, i: Info)
    ensures Offered(es + [e], i) <==> Offered(es, i) || (e.Offer? && i in e.infos)
  {
    var es' := es + [e];
    assert es'[|es|] == e && forall k :: 0 <= k < |es| ==> es'[k] == es[k];
  }

  lemma {:induction false} OfferedIs(self: Self, es: seq<Event>, i: Info)
    ensures i in Run(self, es).offered <==> Offered(es, i)
  {
    if es != [] {
      var before, e := es[..|es| - 1], es[|es| - 1];
      OfferedIs(self, before, i);
      StepOffers(self, Run(self, before), e);
      OfferedNext(before, e, i);
      assert es == before + [e];
    }
  }

  /** Only an event that finds the participant gone drops anything, and then what it brings. */
  lemma OnlyTheGoneMiss(self: Self, es: seq<Event>, e: Event)
    ensures Run(self, es + [e]).dropped != Run(self, es).dropped ==> Gone(es) && (e.Offer? || e.SendTaken?)
  {
    RunThen(self, es, e);
    StateIs(self, es);
  }

  lemma {:induction false} NoneMissed(self: Self, es: seq<Event>)
    requires !Gone(es)
    ensures Run(self, es).dropped == {}
  {
    if es != [] {
      var before, e := es[..|es| - 1], es[|es| - 1];
      assert es == before + [e];
      EventsNext(before, e);
      NoneMissed(self, before);
      OnlyTheGoneMiss(self, before, e);
    }
  }

  /** The history has an item that tells of a newer version. */
  ghost predicate Outdone(log: seq<Item>, i: Info) {
    exists k :: 0 <= k < |log| && Knows(log[k], i.sid) && i.version < log[k].info.version
  }

  /** The update is in a batch, or is one of a hidden other participant, or was outdone. */
  ghost predicate Settled(self: Self, log: seq<Item>, i: Info) {
    (exists n :: Valid(i, n) in log) || (i.hidden && i.sid != self.sid) || Outdone(log, i)
  }

  lemma SettledStays(self: Self, log: seq<Item>, log': seq<Item>, i: Info)
    requires Settled(self, log, i) && log <= log'
    ensures Settled(self, log', i)
  {
    if n :| Valid(i, n) in log {
      var k :| 0 <= k < |log| && log[k] == Valid(i, n);
      assert log'[k] == Valid(i, n);
    } else if Outdone(log, i) {
      var k :| 0 <= k < |log| && Knows(log[k], i.sid) && i.version < log[k].info.version;
      assert log'[k] == log[k];
    }
  }

  /** What is last known was told or checked. */
  lemma {:induction false} LastKnownIsThere(log: seq<Item>, s: Sid)
    requires LastKnown(log, s).Some?
    ensures exists k :: 0 <= k < |log| && Knows(log[k], s) && log[k].info.version == LastKnown(log, s).value
  {
    var before, item := log[..|log| - 1], log[|log| - 1];
    if !Knows(item, s) {
      LastKnownIsThere(before, s);
      var k :| 0 <= k < |before| && Knows(before[k], s) && before[k].info.version == LastKnown(before, s).value;
      assert log[k] == before[k];
    }
  }

  lemma CheckSettles(self: Self, c: Checked, i: Info, batch: nat)
    requires Faithful(self, c)
    ensures Settled(self, Check(self, c, i, batch).log, i)
  {
    if Outdated(c.cache, i) {
      assert LastKnown(c.log, i.sid) == InCache(c.cache, i.sid);
      LastKnownIsThere(c.log, i.sid);
    } else if !HiddenFrom(self, i) {
      assert Check(self, c, i, batch).log[|c.log|] == Valid(i, batch);
    }
  }

  lemma {:induction false} CheckAllSettles(self: Self, c: Checked, infos: seq<Info>, gone: Evictions, batch: nat)
    requires Faithful(self, c)
    ensures forall i :: i in infos ==> Settled(self, CheckAll(self, c, infos, gone, batch).log, i)
  {
    if infos != [] {
      var init, last := infos[..|infos| - 1], infos[|infos| - 1];
      var c1 := CheckAll(self, c, init, gone, batch);
      var c2 := Evict(c1, gone(|infos| - 1));
      assert infos == init + [last];
      CheckAllSettles(self, c, init, gone, batch);
      CheckAllIsFaithful(self, c, init, gone, batch);
      EvictIsFaithful(self, c1, gone(|infos| - 1));
      CheckSettles(self, c2, last, batch);
      forall i | i in init
        ensures Settled(self, CheckAll(self, c, infos, gone, batch).log, i)
      {
        SettledStays(self, c1.log, CheckAll(self, c, infos, gone, batch).log, i);
      }
    }
  }

  ghost predicate AllSettled(self: Self, d: Delivery) {
    forall i :: i in d.judged ==> Settled(self, d.checked.log, i)
  }

  lemma SendSettles(self: Self, d: Delivery, infos: seq<Info>, gone: Evictions)
    requires Faithful(self, d.checked) && AllSettled(self, d)
    ensures AllSettled(self, Send(self, d, infos, gone))
  {
    var log' := CheckAll(self, d.checked, infos, gone, d.batches).log;
    CheckAllSettles(self, d.checked, infos, gone, d.batches);
    CheckAllExtends(self, d.checked, infos, gone, d.batches);
    forall i | i in d.judged
      ensures Settled(self, log', i)
    {
      SettledStays(self, d.checked.log, log', i);
    }
  }

  lemma StepSettles(self: Self, d: Delivery, e: Event)
    requires Faithful(self, d.checked) && AllSettled(self, d)
    ensures AllSettled(self, Step(self, d, e))
  {
    match e
    case Offer(infos, gone) => SendSettles(self, d.(offered := d.offered + Members(infos)), infos, gone);
    case SendTaken(k, gone) =>
      if k < |d.taken| {
        SendSettles(self, d.(taken := d.taken[..k] + d.taken[k + 1..]), d.taken[k], gone);
      }
    case JoinTells(others, gone) =>
      TellExtends(d.checked, others, gone);
      forall i | i in d.judged
        ensures Settled(self, Tell(d.checked, others, gone).log, i)
      {
        SettledStays(self, d.checked.log, Tell(d.checked, others, gone).log, i);
      }
    case _ => OtherStepsCheckNothing(self, d, e);
  }

  lemma {:induction false} RunSettles(self: Self, es: seq<Event>)
    ensures AllSettled(self, Run(self, es))
  {
    if es != [] {
      RunSettles(self, es[..|es| - 1]);
      RunIsFaithful(self, es[..|es| - 1]);
      StepSettles(self, Run(self, es[..|es| - 1]), es[|es| - 1]);
    }
  }

  /**
   Over any run until the participant is gone, each update offered is queued, or in a queue on its way from a
   flush, or in a batch; unless it is about a hidden other participant, or a newer version was told or checked.
   */
  lemma NothingOfferedIsLost(self: Self, es: seq<Event>, i: Info)
    requires !Gone(es) && Offered(es, i)
    ensures var d := Run(self, es);
            i in d.queued || TakenHolds(d.taken, i) || Settled(self, d.checked.log, i)
  {
    OfferedIs(self, es, i);
    OpensFirstLosesNothing(self, es);
    NoneMissed(self, es);
    RunSettles(self, es);
  }

  ghost predicate WriteCame(es: seq<Event>, n: nat) {
    exists k :: 0 <= k < |es| && es[k].WriteBatch? && es[k].n == n
  }

  /** Every batch that was checked is yet to be written, or its write has come. */
  lemma {:induction false} EveryBatchIsWritten(self: Self, es: seq<Event>, n: nat)
    requires n < Run(self, es).batches
    ensures n in Run(self, es).inFlight || WriteCame(es, n)
  {
    var before, e := es[..|es| - 1], es[|es| - 1];
    StepOnBatches(self, Run(self, before), e);
    assert es[|es| - 1] == e && forall k :: 0 <= k < |before| ==> es[k] == before[k];
    if n < Run(self, before).batches {
      EveryBatchIsWritten(self, before, n);
    }
  }

  // ---------------------------------------------------------------------------------------
  // What a batch holds
  // ---------------------------------------------------------------------------------------

  /** Part of the updates, in their order. */
  predicate PartOf(part: seq<Info>, infos: seq<Info>) {
    part == [] ||
    (infos != [] &&
     (|| PartOf(part, infos[..|infos| - 1])
      || (part[|part| - 1] == infos[|infos| - 1] && PartOf(part[..|part| - 1], infos[..|infos| - 1]))))
  }

  /** A batch is part of the updates it was checked from, in their order. */
  lemma {:induction false} BatchIsPart(self: Self, c: Checked, infos: seq<Info>, gone: Evictions, batch: nat)
    requires Batch(c.log, batch) == []
    ensures PartOf(Batch(CheckAll(self, c, infos, gone, batch).log, batch), infos)
  {
    if infos != [] {
      var k := |infos| - 1;
      var c1 := CheckAll(self, c, infos[..k], gone, batch);
      BatchIsPart(self, c, infos[..k], gone, batch);
      BatchGrows(c1.log, Evicted(gone(k)), batch);
      CheckGrows(self, Evict(c1, gone(k)), infos[k], batch);
      var before, after := Batch(c1.log, batch), Batch(CheckAll(self, c, infos, gone, batch).log, batch);
      assert after == before || (after == before + [infos[k]] && after[..|after| - 1] == before);
    }
  }

  /** The Join response tells the cache of every participant it lists. */
  lemma {:induction false} JoinTellsOfAll(c: Checked, infos: seq<Info>, gone: Evictions)
    ensures forall i :: i in infos ==> Told(i) in Tell(c, infos, gone).log
  {
    if infos != [] {
      JoinTellsOfAll(c, infos[..|infos| - 1], gone);
      assert infos == infos[..|infos| - 1] + [infos[|infos| - 1]];
    }
  }

  /** In every run: of each participant listed to one that joins, the version told is remembered. */
  lemma JoinIsRemembered(self: Self, es: seq<Event>, infos: seq<Info>, gone: Evictions)
    requires !self.migration && !Gone(es) && !JoinSent(es)
    ensures forall i :: i in infos ==> Told(i) in Run(self, es + [JoinTells(infos, gone)]).checked.log
  {
    RunThen(self, es, JoinTells(infos, gone));
    StateIs(self, es);
    JoinTellsOfAll(Run(self, es).checked, infos, gone);
  }
}
