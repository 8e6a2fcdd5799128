/**
 Reliable data while a participant joins: the joining part of SendDataMessage,
 replayJoiningReliableMessages and SetMigrateInfo (pkg/rtc/participant.go) together with the room's
 message cache and broadcast (pkg/rtc/room.go).

 A publisher's handler caches a message, picks its recipients, and offers it, one message at a
 time; the participant's join, its migration info and the replay fall anywhere in between.
 */
module JoiningReplay {
  import opened Prelude

  type ParticipantID = string
  type Identity = string

  const MAX_UNSEQUENCED_BYTES := 100_000

  datatype Msg = Msg(sender: ParticipantID, no: Seq32, dests: seq<Identity>, data: string)

  /** What is handed to the reliable data channel. */
  datatype Out = Sequenced(msg: Msg) | Raw(data: string)

  /** The fields of reliableDataInfo that the joining protocol uses, and what has been written. */
  datatype Info = Info(
    firstSeqs: map<ParticipantID, Seq32>,
    lastWritten: map<ParticipantID, Seq32>,
    canWrite: bool,
    held: seq<string>,
    heldBytes: nat,
    dropped: nat,
    out: seq<Out>)

  function NewInfo(): Info { Info(map[], map[], false, [], 0, 0, []) }

  predicate Addressed(m: Msg, me: Identity) { m.dests == [] || me in m.dests }

  // ---------------------------------------------------------------------------------------
  // The participant's operations as functions
  // ---------------------------------------------------------------------------------------

  /** SendDataMessage with a sender and a sequence number. */
  function Offer(i: Info, m: Msg): Info {
    if !i.canWrite then
      if m.sender in i.firstSeqs then i else i.(firstSeqs := i.firstSeqs[m.sender := m.no])
    else if m.sender in i.lastWritten && m.no <= i.lastWritten[m.sender] then i
    else i.(lastWritten := i.lastWritten - {m.sender}, out := i.out + [Sequenced(m)])
  }

  /** SendDataMessage without one, and whether it was taken. */
  function OfferRaw(i: Info, data: string, active: bool): (Info, bool) {
    if !i.canWrite then
      if i.heldBytes + |data| > MAX_UNSEQUENCED_BYTES then (i.(dropped := i.dropped + 1), false)
      else (i.(held := i.held + [data], heldBytes := i.heldBytes + |data|), true)
    else if active then (i.(out := i.out + [Raw(data)]), true)
    else (i, false)
  }

  /** GetCachedReliableDataMessage and the destination check of the replay loop. */
  predicate Wanted(m: Msg, first: map<ParticipantID, Seq32>, me: Identity) {
    m.sender in first && m.no >= first[m.sender] && Addressed(m, me)
  }

  function Selected(cache: seq<Msg>, first: map<ParticipantID, Seq32>, me: Identity): seq<Msg> {
    if cache == [] then [] else
    var m := cache[|cache| - 1];
    Selected(cache[..|cache| - 1], first, me) + if Wanted(m, first, me) then [m] else []
  }

  function Note(lw: map<ParticipantID, Seq32>, m: Msg): map<ParticipantID, Seq32> {
    if m.sender !in lw || lw[m.sender] < m.no then lw[m.sender := m.no] else lw
  }

  function NoteAll(lw: map<ParticipantID, Seq32>, ms: seq<Msg>): map<ParticipantID, Seq32> {
    if ms == [] then lw else Note(NoteAll(lw, ms[..|ms| - 1]), ms[|ms| - 1])
  }

  function AsSequenced(ms: seq<Msg>): seq<Out> { seq(|ms|, k requires 0 <= k < |ms| => Sequenced(ms[k])) }

  function AsRaw(ds: seq<string>): seq<Out> { seq(|ds|, k requires 0 <= k < |ds| => Raw(ds[k])) }

  function Replay(i: Info, cache: seq<Msg>, me: Identity): Info {
    var ms := Selected(cache, i.firstSeqs, me);
    Info(map[], NoteAll(i.lastWritten, ms), true, [], 0, 0, i.out + AsSequenced(ms) + AsRaw(i.held))
  }

  /** SetMigrateInfo: what the participant had received on its previous node. */
  function Migrate(first: map<ParticipantID, Seq32>, states: seq<(ParticipantID, Seq32)>): map<ParticipantID, Seq32> {
    if states == [] then first else
    var (s, last) := states[|states| - 1];
    Migrate(first, states[..|states| - 1])[s := NextSeq(last)]
  }

  /** The k-th entry is the last one of this sender. */
  ghost predicate IsLatest(states: seq<(ParticipantID, Seq32)>, s: ParticipantID, k: int) {
    0 <= k < |states| && states[k].0 == s && forall j :: k < j < |states| ==> states[j].0 != s
  }

  ghost predicate Mentions(states: seq<(ParticipantID, Seq32)>, s: ParticipantID) {
    exists k :: 0 <= k < |states| && states[k].0 == s
  }

  /** A sender mentioned starts one past its last entry, in 32 bits; another keeps what it had. */
  ghost predicate StartsPast(first: map<ParticipantID, Seq32>, states: seq<(ParticipantID, Seq32)>,
      first': map<ParticipantID, Seq32>, s: ParticipantID) {
    if Mentions(states, s) then
      exists k :: && IsLatest(states, s, k) && s in first'
                  && first'[s] == if states[k].1 == 0xFFFF_FFFF then 0 else states[k].1 + 1
    else if s in first then s in first' && first'[s] == first[s] else s !in first'
  }

  lemma {:induction false} MigrateStartsPast(first: map<ParticipantID, Seq32>, states: seq<(ParticipantID, Seq32)>,
      s: ParticipantID)
    ensures StartsPast(first, states, Migrate(first, states), s)
  {
    if states != [] {
      var init, last := states[..|states| - 1], states[|states| - 1];
      MigrateStartsPast(first, init, s);
      assert states[|init|] == last && forall k :: 0 <= k < |init| ==> init[k] == states[k];
      assert Migrate(first, states) == Migrate(first, init)[last.0 := NextSeq(last.1)];
      if last.0 == s {
        assert IsLatest(states, s, |init|);
      } else if Mentions(init, s) {
        var k :| IsLatest(init, s, k) && Migrate(first, init)[s] == if init[k].1 == 0xFFFF_FFFF then 0
            else init[k].1 + 1;
        assert IsLatest(states, s, k);
      } else {
        assert !Mentions(states, s);
      }
    }
  }

  class ReliableDataInfo {
    const me: Identity
    var firstSeqs: map<ParticipantID, Seq32>
    var lastWritten: map<ParticipantID, Seq32>
    var canWrite: bool
    var held: seq<string>
    var heldBytes: nat
    var dropped: nat
    var out: seq<Out>

    function State(): Info
      reads this
    {
      Info(firstSeqs, lastWritten, canWrite, held, heldBytes, dropped, out)
    }

    constructor (me: Identity)
      ensures State() == NewInfo() && this.me == me
    {
      this.me := me;
      firstSeqs, lastWritten, canWrite, held, heldBytes, dropped, out := map[], map[], false, [], 0, 0, [];
    }

    method SendSequenced(m: Msg)
      modifies this
      ensures State() == Offer(old(State()), m)
      ensures !old(canWrite) ==>
                State() == old(State()).(firstSeqs := if m.sender in old(firstSeqs) then old(firstSeqs)
                                                      else old(firstSeqs)[m.sender := m.no])
      ensures old(canWrite) && m.sender in old(lastWritten) && m.no <= old(lastWritten)[m.sender] ==>
                State() == old(State())
      ensures old(canWrite) && (m.sender in old(lastWritten) ==> old(lastWritten)[m.sender] < m.no) ==>
                State() == old(State()).(lastWritten := old(lastWritten) - {m.sender},
                                         out := old(out) + [Sequenced(m)])
    {
      if !canWrite {
        if m.sender !in firstSeqs {
          firstSeqs := firstSeqs[m.sender := m.no];
        }
        return;
      }
      if m.sender in lastWritten {
        if m.no <= lastWritten[m.sender] {
          return;
        }
      }
      lastWritten := lastWritten - {m.sender};
      out := out + [Sequenced(m)];
    }

    method SendUnsequenced(data: string, active: bool) returns (ok: bool)
      modifies this
      ensures (State(), ok) == OfferRaw(old(State()), data, active)
      ensures ok <==> if old(canWrite) then active else old(heldBytes) + |data| <= 100_000
      ensures !ok ==> State() == old(State()).(dropped := old(dropped) + if old(canWrite) then 0 else 1)
      ensures ok ==> State() == if old(canWrite) then old(State()).(out := old(out) + [Raw(data)])
                                else old(State()).(held := old(held) + [data], heldBytes := old(heldBytes) + |data|)
    {
      if !canWrite {
        if heldBytes + |data| > MAX_UNSEQUENCED_BYTES {
          dropped := dropped + 1;
          return false;
        }
        held := held + [data];
        heldBytes := heldBytes + |data|;
        return true;
      }
      if !active {
        return false;
      }
      out := out + [Raw(data)];
      ok := true;
    }

    method SetMigrateInfo(states: seq<(ParticipantID, Seq32)>)
      modifies this
      ensures State() == old(State()).(firstSeqs := Migrate(old(firstSeqs), states))
      ensures forall s :: StartsPast(old(firstSeqs), states, firstSeqs, s)
    {
      forall s
        ensures StartsPast(firstSeqs, states, Migrate(firstSeqs, states), s)
      {
        MigrateStartsPast(firstSeqs, states, s);
      }
      for k := 0 to |states|
        invariant State() == old(State()).(firstSeqs := Migrate(old(firstSeqs), states[..k]))
      {
        assert states[..k + 1][..k] == states[..k];
        firstSeqs := firstSeqs[states[k].0 := NextSeq(states[k].1)];
      }
      assert states[..|states|] == states;
    }

    method WriteCached(cache: seq<Msg>)
      modifies `lastWritten, `out
      ensures var sel := Selected(cache, firstSeqs, me);
              lastWritten == NoteAll(old(lastWritten), sel) && out == old(out) + AsSequenced(sel)
    {
      ghost var sel: seq<Msg> := [];
      for k := 0 to |cache|
        invariant sel == Selected(cache[..k], firstSeqs, me)
        invariant lastWritten == NoteAll(old(lastWritten), sel)
        invariant out == old(out) + AsSequenced(sel)
      {
        assert cache[..k + 1][..k] == cache[..k];
        var m := cache[k];
        if m.sender in firstSeqs && m.no >= firstSeqs[m.sender] {
          if m.dests == [] || me in m.dests {
            if m.sender !in lastWritten || lastWritten[m.sender] < m.no {
              lastWritten := lastWritten[m.sender := m.no];
            }
            out := out + [Sequenced(m)];
            assert (sel + [m])[..|sel|] == sel;
            assert AsSequenced(sel + [m]) == AsSequenced(sel) + [Sequenced(m)];
            sel := sel + [m];
          }
        }
      }
      assert cache[..|cache|] == cache;
    }

    method WriteHeld()
      modifies `out
      ensures out == old(out) + AsRaw(held)
    {
      for k := 0 to |held|
        invariant out == old(out) + AsRaw(held[..k])
      {
        out := out + [Raw(held[k])];
      }
      assert held[..|held|] == held;
    }

    method ReplayJoining(cache: seq<Msg>)
      modifies this
      ensures State() == Replay(old(State()), cache, me)
    {
      WriteCached(cache);
      WriteHeld();
      held, heldBytes, dropped := [], 0, 0;
      firstSeqs := map[];
      canWrite := true;
    }
  }

  // ---------------------------------------------------------------------------------------
  // The room around the participant
  // ---------------------------------------------------------------------------------------

  /** A message between being cached and being offered; `target` once the recipients are picked. */
  datatype Pending = Cached(msg: Msg) | Targeted(msg: Msg, target: bool)

  /**
   `last` is the highest number each publisher has had accepted (lastPubReliableSeq), `received` what
   the migration info said, `offered` the messages offered, `offeredLive` those offered after the
   replay, and `rawTaken` the unsequenced messages SendDataMessage took.
   */
  datatype Room = Room(
    info: Info,
    joined: bool,
    cache: seq<Msg>,
    last: map<ParticipantID, Seq32>,
    pending: map<ParticipantID, Pending>,
    received: map<ParticipantID, Seq32>,
    offered: seq<Msg>,
    offeredLive: seq<Msg>,
    rawTaken: seq<string>)

  datatype Event =
    | Publish(m: Msg)
    | PickRecipients(s: ParticipantID)
    | OfferPending(s: ParticipantID)
    | Join
    | MigrateInfo(s: ParticipantID, lastSeq: Seq32)
    | ReplayEvent
    | SendRaw(data: string, active: bool)

  function NewRoom(): Room { Room(NewInfo(), false, [], map[], map[], map[], [], [], []) }

  function Step(r: Room, e: Event, me: Identity): Room {
    match e
    case Publish(m) =>
      if m.sender !in r.pending && (if m.sender in r.last then r.last[m.sender] else 0) < m.no then
        r.(cache := r.cache + [m], last := r.last[m.sender := m.no], pending := r.pending[m.sender := Cached(m)])
      else r
    case PickRecipients(s) =>
      if s in r.pending && r.pending[s].Cached? then
        var m := r.pending[s].msg;
        r.(pending := r.pending[s := Targeted(m, r.joined && Addressed(m, me))])
      else r
    case OfferPending(s) =>
      if s in r.pending && r.pending[s].Targeted? then
        var m := r.pending[s].msg;
        var r' := r.(pending := r.pending - {s});
        if r.pending[s].target then
          r'.(info := Offer(r.info, m),
              offered := r.offered + [m],
              offeredLive := if r.info.canWrite then r.offeredLive + [m] else r.offeredLive)
        else r'
      else r
    case Join => r.(joined := true)
    case MigrateInfo(s, lastSeq) =>
      if r.info.canWrite then r
      else r.(info := r.info.(firstSeqs := Migrate(r.info.firstSeqs, [(s, lastSeq)])),
          received := r.received[s := lastSeq])
    case ReplayEvent => r.(info := Replay(r.info, r.cache, me))
    case SendRaw(data, active) =>
      var (info, ok) := OfferRaw(r.info, data, active);
      r.(info := info, rawTaken := if ok then r.rawTaken + [data] else r.rawTaken)
  }

  function Run(es: seq<Event>, me: Identity): Room {
    if es == [] then NewRoom() else Step(Run(es[..|es| - 1], me), es[|es| - 1], me)
  }

  // ---------------------------------------------------------------------------------------
  // Invariants
  // ---------------------------------------------------------------------------------------

  /** Per sender, the numbers of the sequenced messages rise strictly. */
  ghost predicate Rising(out: seq<Out>) {
    forall i, j ::
      0 <= i < j < |out| && out[i].Sequenced? && out[j].Sequenced? && out[i].msg.sender == out[j].msg.sender
      ==> out[i].msg.no < out[j].msg.no
  }

  /** The highest number received before, zero if the participant is new to this sender. */
  function UpTo(received: map<ParticipantID, Seq32>, s: ParticipantID): Seq32 {
    if s in received then received[s] else 0
  }

  /** The publishers are in order. */
  ghost predicate CacheInv(cache: seq<Msg>, last: map<ParticipantID, Seq32>) {
    && Rising(AsSequenced(cache))
    && forall m :: m in cache ==> m.sender in last && 0 < m.no <= last[m.sender]
  }

  /** The message a handler works on is the last one its publisher had cached. */
  ghost predicate PendingInv(pending: map<ParticipantID, Pending>, cache: seq<Msg>, last: map<ParticipantID, Seq32>,
      me: Identity) {
    forall s :: s in pending ==>
      && pending[s].msg in cache && pending[s].msg.sender == s && s in last && pending[s].msg.no == last[s]
      && (pending[s].Targeted? && pending[s].target ==> Addressed(pending[s].msg, me))
  }

  ghost predicate AddressInv(out: seq<Out>, offered: seq<Msg>, cache: seq<Msg>, me: Identity) {
    && (forall m :: m in offered ==> m in cache && Addressed(m, me))
    && (forall m :: Sequenced(m) in out ==> m in cache && Addressed(m, me))
  }

  /** While joining, the first number kept for a sender misses no offered message. */
  ghost predicate FirstInv(first: map<ParticipantID, Seq32>, received: map<ParticipantID, Seq32>,
                           last: map<ParticipantID, Seq32>, offered: seq<Msg>)
  {
    && (forall m :: m in offered && m.no > UpTo(received, m.sender) ==> m.sender in first && first[m.sender] <= m.no)
    && (forall s :: s in received ==> s in first && first[s] == NextSeq(received[s]))
    && (forall s :: s in first && s !in received ==> s in last && first[s] <= last[s])
  }

  predicate Suppressed(lw: map<ParticipantID, Seq32>, m: Msg) { m.sender in lw && m.no <= lw[m.sender] }

  /** After the replay, `lastWritten` tells exactly whether the message being handled was written by it. */
  ghost predicate SuppressInv(lw: map<ParticipantID, Seq32>, out: seq<Out>, pending: map<ParticipantID, Pending>,
                              last: map<ParticipantID, Seq32>)
  {
    && (forall s :: s in lw ==> s in last && lw[s] <= last[s])
    && (forall s :: s in pending ==> (Sequenced(pending[s].msg) in out <==> Suppressed(lw, pending[s].msg)))
  }

  /** Past what the previous node had delivered; the last number of all wraps to zero and guards nothing. */
  ghost predicate StartsLate(received: map<ParticipantID, Seq32>, m: Msg) {
    m.sender in received && received[m.sender] < UINT32 - 1 ==> m.no > received[m.sender]
  }

  ghost predicate WrittenInv(out: seq<Out>, offered: seq<Msg>, live: seq<Msg>, received: map<ParticipantID, Seq32>) {
    && (forall m :: m in offered && m.no > UpTo(received, m.sender) ==> Sequenced(m) in out)
    && (forall m :: m in live ==> Sequenced(m) in out)
    && (forall m :: Sequenced(m) in out ==> StartsLate(received, m) || m in live)
  }

  ghost predicate JoiningInv(r: Room) {
    && (forall m :: Sequenced(m) !in r.info.out)
    && r.info.lastWritten == map[] && r.offeredLive == []
    && FirstInv(r.info.firstSeqs, r.received, r.last, r.offered)
  }

  ghost predicate OpenInv(r: Room) {
    && r.info.firstSeqs == map[]
    && SuppressInv(r.info.lastWritten, r.info.out, r.pending, r.last)
    && WrittenInv(r.info.out, r.offered, r.offeredLive, r.received)
  }

  ghost predicate Inv(r: Room, me: Identity) {
    && CacheInv(r.cache, r.last) && PendingInv(r.pending, r.cache, r.last, me)
    && AddressInv(r.info.out, r.offered, r.cache, me)
    && Rising(r.info.out)
    && if r.info.canWrite then OpenInv(r) else JoiningInv(r)
  }

  lemma RisingAppend(out: seq<Out>, m: Msg)
    requires Rising(out)
    requires forall x :: Sequenced(x) in out && x.sender == m.sender ==> x.no < m.no
    ensures Rising(out + [Sequenced(m)])
  {
    forall i | 0 <= i < |out| && out[i].Sequenced? && out[i].msg.sender == m.sender
      ensures out[i].msg.no < m.no
    {
      assert Sequenced(out[i].msg) in out;
    }
  }

  lemma {:induction false} RisingAppendRaw(out: seq<Out>, ds: seq<string>)
    requires Rising(out)
    ensures Rising(out + AsRaw(ds))
    ensures forall m :: Sequenced(m) in out + AsRaw(ds) <==> Sequenced(m) in out
  {
  }

  // ---------------------------------------------------------------------------------------
  // The replay
  // ---------------------------------------------------------------------------------------

  lemma {:induction false} SelectedIsWanted(cache: seq<Msg>, first: map<ParticipantID, Seq32>, me: Identity)
    ensures forall m :: m in Selected(cache, first, me) <==> m in cache && Wanted(m, first, me)
    ensures first == map[] ==> Selected(cache, first, me) == []
  {
    if cache != [] {
      SelectedIsWanted(cache[..|cache| - 1], first, me);
      assert cache == cache[..|cache| - 1] + [cache[|cache| - 1]];
    }
  }

  lemma InSequenced(ms: seq<Msg>)
    ensures forall m :: Sequenced(m) in AsSequenced(ms) <==> m in ms
  {
    forall m | m in ms
      ensures Sequenced(m) in AsSequenced(ms)
    {
      var k :| 0 <= k < |ms| && ms[k] == m;
      assert AsSequenced(ms)[k] == Sequenced(m);
    }
  }

  lemma {:induction false} SelectedRises(cache: seq<Msg>, first: map<ParticipantID, Seq32>, me: Identity)
    requires Rising(AsSequenced(cache))
    ensures Rising(AsSequenced(Selected(cache, first, me)))
  {
    if cache != [] {
      var init, m := cache[..|cache| - 1], cache[|cache| - 1];
      assert AsSequenced(init) == AsSequenced(cache)[..|cache| - 1];
      SelectedRises(init, first, me);
      var ms := Selected(init, first, me);
      if Wanted(m, first, me) {
        SelectedIsWanted(init, first, me);
        InSequenced(ms);
        forall x | x in ms && x.sender == m.sender
          ensures x.no < m.no
        {
          var k :| 0 <= k < |init| && init[k] == x;
          assert AsSequenced(cache)[k] == Sequenced(x) && AsSequenced(cache)[|cache| - 1] == Sequenced(m);
        }
        RisingAppend(AsSequenced(ms), m);
        assert AsSequenced(ms + [m]) == AsSequenced(ms) + [Sequenced(m)];
      } else {
        assert ms + [] == ms;
      }
    }
  }

  lemma {:induction false} NoteAllHoldsTheHighest(ms: seq<Msg>)
    ensures forall m :: m in ms ==> m.sender in NoteAll(map[], ms) && m.no <= NoteAll(map[], ms)[m.sender]
    ensures forall s :: s in NoteAll(map[], ms) ==> exists m ::
        m in ms && m.sender == s && m.no == NoteAll(map[], ms)[s]
  {
    if ms != [] {
      var init, last := ms[..|ms| - 1], ms[|ms| - 1];
      NoteAllHoldsTheHighest(init);
      assert ms == init + [last];
      var lw := NoteAll(map[], ms);
      forall s | s in lw
        ensures exists m :: m in ms && m.sender == s && m.no == lw[s]
      {
        if s in NoteAll(map[], init) && lw[s] == NoteAll(map[], init)[s] {
          var m :| m in init && m.sender == s && m.no == lw[s];
          assert m in ms;
        } else {
          assert last in ms;
        }
      }
    }
  }

  lemma SameNumberSameMessage(cache: seq<Msg>, a: Msg, b: Msg)
    requires Rising(AsSequenced(cache)) && a in cache && b in cache && a.sender == b.sender && a.no == b.no
    ensures a == b
  {
    var i :| 0 <= i < |cache| && cache[i] == a;
    var j :| 0 <= j < |cache| && cache[j] == b;
    assert AsSequenced(cache)[i] == Sequenced(a) && AsSequenced(cache)[j] == Sequenced(b);
  }

  /** Nothing sequenced so far, so the replay's messages are all there is. */
  lemma ReplayRises(out: seq<Out>, ms: seq<Msg>)
    requires forall m :: Sequenced(m) !in out
    requires Rising(AsSequenced(ms))
    ensures Rising(out + AsSequenced(ms))
    ensures forall m :: Sequenced(m) in out + AsSequenced(ms) <==> m in ms
  {
    InSequenced(ms);
    var all := out + AsSequenced(ms);
    forall i | 0 <= i < |out|
      ensures !all[i].Sequenced?
    {
      assert out[i] in out;
      match out[i]
      case Sequenced(m) => assert false;
      case Raw(_) =>
    }
    assert forall i :: |out| <= i < |all| ==> all[i] == AsSequenced(ms)[i - |out|];
  }

  /** What the replay writes, for a participant that was still joining. */
  lemma ReplayWrites(r: Room, me: Identity)
    requires Inv(r, me) && !r.info.canWrite
    ensures Rising(Replay(r.info, r.cache, me).out)
    ensures forall m ::
        Sequenced(m) in Replay(r.info, r.cache, me).out <==>
        && m in r.cache && m.sender in r.info.firstSeqs && r.info.firstSeqs[m.sender] <= m.no
        && (m.dests == [] || me in m.dests)
  {
    var ms := Selected(r.cache, r.info.firstSeqs, me);
    SelectedIsWanted(r.cache, r.info.firstSeqs, me);
    SelectedRises(r.cache, r.info.firstSeqs, me);
    ReplayRises(r.info.out, ms);
    RisingAppendRaw(r.info.out + AsSequenced(ms), r.info.held);
  }

  lemma ReplaySuppresses(r: Room, me: Identity)
    requires Inv(r, me) && !r.info.canWrite
    ensures var i := Replay(r.info, r.cache, me); SuppressInv(i.lastWritten, i.out, r.pending, r.last)
  {
    var i := Replay(r.info, r.cache, me);
    var ms := Selected(r.cache, r.info.firstSeqs, me);
    SelectedIsWanted(r.cache, r.info.firstSeqs, me);
    ReplayWrites(r, me);
    NoteAllHoldsTheHighest(ms);
    var lw := i.lastWritten;
    forall s | s in lw
      ensures s in r.last && lw[s] <= r.last[s]
    {
      var m :| m in ms && m.sender == s && m.no == lw[s];
    }
    forall s | s in r.pending && Suppressed(lw, r.pending[s].msg)
      ensures Sequenced(r.pending[s].msg) in i.out
    {
      var m :| m in ms && m.sender == s && m.no == lw[s];
      SameNumberSameMessage(r.cache, m, r.pending[s].msg);
    }
  }

  lemma ReplayCovers(r: Room, me: Identity)
    requires Inv(r, me) && !r.info.canWrite
    ensures WrittenInv(Replay(r.info, r.cache, me).out, r.offered, r.offeredLive, r.received)
  {
    ReplayWrites(r, me);
    forall m | m in r.offered && m.no > UpTo(r.received, m.sender)
      ensures Wanted(m, r.info.firstSeqs, me)
    {
    }
    forall m | m in r.cache && Wanted(m, r.info.firstSeqs, me)
      ensures StartsLate(r.received, m)
    {
    }
  }

  lemma ReplayKeeps(r: Room, me: Identity)
    requires Inv(r, me)
    ensures Inv(Step(r, ReplayEvent, me), me)
  {
    if r.info.canWrite {
      SelectedIsWanted(r.cache, map[], me);
      RisingAppendRaw(r.info.out, r.info.held);
      assert r.info.out + AsSequenced([]) == r.info.out;
    } else {
      ReplayWrites(r, me);
      ReplaySuppresses(r, me);
      ReplayCovers(r, me);
    }
  }

  // ---------------------------------------------------------------------------------------
  // The other steps
  // ---------------------------------------------------------------------------------------

  lemma CachedNext(cache: seq<Msg>, last: map<ParticipantID, Seq32>, m: Msg)
    requires CacheInv(cache, last) && 0 < m.no && (m.sender in last ==> last[m.sender] < m.no)
    ensures CacheInv(cache + [m], last[m.sender := m.no]) && m !in cache
  {
    InSequenced(cache);
    RisingAppend(AsSequenced(cache), m);
    assert AsSequenced(cache + [m]) == AsSequenced(cache) + [Sequenced(m)];
  }

  lemma PublishKeeps(r: Room, m: Msg, me: Identity)
    requires Inv(r, me)
    ensures Inv(Step(r, Publish(m), me), me)
  {
    var r' := Step(r, Publish(m), me);
    if r' != r {
      CachedNext(r.cache, r.last, m);
      assert PendingInv(r'.pending, r'.cache, r'.last, me);
      assert AddressInv(r'.info.out, r'.offered, r'.cache, me);
      if r.info.canWrite {
        assert Sequenced(m) !in r.info.out;
        assert SuppressInv(r'.info.lastWritten, r'.info.out, r'.pending, r'.last);
      } else {
        assert FirstInv(r'.info.firstSeqs, r'.received, r'.last, r'.offered);
      }
    }
  }

  /** The same messages, or fewer of them, are being handled. */
  ghost predicate Narrows(p: map<ParticipantID, Pending>, p': map<ParticipantID, Pending>, me: Identity) {
    forall t :: t in p' ==>
      && t in p && p'[t].msg == p[t].msg
      && (p'[t].Targeted? && p'[t].target && p'[t] != p[t] ==> Addressed(p[t].msg, me))
  }

  lemma NarrowsKeeps(r: Room, p': map<ParticipantID, Pending>, me: Identity)
    requires Inv(r, me) && Narrows(r.pending, p', me)
    ensures Inv(r.(pending := p'), me)
  {
    assert PendingInv(p', r.cache, r.last, me);
    if r.info.canWrite {
      assert SuppressInv(r.info.lastWritten, r.info.out, p', r.last);
    }
  }

  lemma PickKeeps(r: Room, s: ParticipantID, me: Identity)
    requires Inv(r, me)
    ensures Inv(Step(r, PickRecipients(s), me), me)
  {
    NarrowsKeeps(r, Step(r, PickRecipients(s), me).pending, me);
  }

  /** A live offer that is not suppressed is new, and the highest of its sender. */
  lemma LiveWriteIsNew(r: Room, s: ParticipantID, me: Identity)
    requires Inv(r, me) && r.info.canWrite
    requires s in r.pending && !Suppressed(r.info.lastWritten, r.pending[s].msg)
    ensures Rising(r.info.out + [Sequenced(r.pending[s].msg)])
  {
    var m := r.pending[s].msg;
    forall x | Sequenced(x) in r.info.out && x.sender == s
      ensures x.no < m.no
    {
      if x.no == m.no {
        SameNumberSameMessage(r.cache, x, m);
      }
    }
    RisingAppend(r.info.out, m);
  }

  /** The sender's entry goes with its first live write; no other sender is touched. */
  lemma LiveWriteSuppresses(r: Room, s: ParticipantID, me: Identity)
    requires Inv(r, me) && r.info.canWrite && s in r.pending
    ensures SuppressInv(r.info.lastWritten - {s}, r.info.out + [Sequenced(r.pending[s].msg)], r.pending - {s}, r.last)
  {
    var m := r.pending[s].msg;
    forall t | t in r.pending && t != s
      ensures Sequenced(r.pending[t].msg) in r.info.out + [Sequenced(m)] <==>
          Suppressed(r.info.lastWritten - {s}, r.pending[t].msg)
    {
    }
  }

  lemma LiveWriteKeeps(r: Room, s: ParticipantID, me: Identity)
    requires Inv(r, me) && r.info.canWrite
    requires s in r.pending && r.pending[s].Targeted? && r.pending[s].target
        && !Suppressed(r.info.lastWritten, r.pending[s].msg)
    ensures Inv(Step(r, OfferPending(s), me), me)
  {
    var r' := Step(r, OfferPending(s), me);
    NarrowsKeeps(r, r.pending - {s}, me);
    LiveWriteIsNew(r, s, me);
    LiveWriteSuppresses(r, s, me);
    assert AddressInv(r'.info.out, r'.offered, r'.cache, me);
    assert WrittenInv(r'.info.out, r'.offered, r'.offeredLive, r'.received);
  }

  lemma SuppressedOfferKeeps(r: Room, s: ParticipantID, me: Identity)
    requires Inv(r, me) && r.info.canWrite
    requires s in r.pending && r.pending[s].Targeted? && r.pending[s].target
        && Suppressed(r.info.lastWritten, r.pending[s].msg)
    ensures Inv(Step(r, OfferPending(s), me), me)
  {
    var r' := Step(r, OfferPending(s), me);
    NarrowsKeeps(r, r.pending - {s}, me);
    assert AddressInv(r'.info.out, r'.offered, r'.cache, me);
    assert WrittenInv(r'.info.out, r'.offered, r'.offeredLive, r'.received);
  }

  lemma FirstOffer(first: map<ParticipantID, Seq32>, received: map<ParticipantID, Seq32>,
                   last: map<ParticipantID, Seq32>, offered: seq<Msg>, m: Msg)
    requires FirstInv(first, received, last, offered)
    requires m.sender in last && m.no == last[m.sender]
    ensures FirstInv(if m.sender in first then first else first[m.sender := m.no], received, last, offered + [m])
  {
  }

  lemma JoiningOfferKeeps(r: Room, s: ParticipantID, me: Identity)
    requires Inv(r, me) && !r.info.canWrite
    requires s in r.pending && r.pending[s].Targeted? && r.pending[s].target
    ensures Inv(Step(r, OfferPending(s), me), me)
  {
    var r' := Step(r, OfferPending(s), me);
    NarrowsKeeps(r, r.pending - {s}, me);
    assert AddressInv(r'.info.out, r'.offered, r'.cache, me);
    FirstOffer(r.info.firstSeqs, r.received, r.last, r.offered, r.pending[s].msg);
  }

  lemma OfferKeeps(r: Room, s: ParticipantID, me: Identity)
    requires Inv(r, me)
    ensures Inv(Step(r, OfferPending(s), me), me)
  {
    if s in r.pending && r.pending[s].Targeted? {
      if !r.pending[s].target {
        NarrowsKeeps(r, r.pending - {s}, me);
      } else if !r.info.canWrite {
        JoiningOfferKeeps(r, s, me);
      } else if Suppressed(r.info.lastWritten, r.pending[s].msg) {
        SuppressedOfferKeeps(r, s, me);
      } else {
        LiveWriteKeeps(r, s, me);
      }
    }
  }

  lemma MigrateKeeps(r: Room, s: ParticipantID, lastSeq: Seq32, me: Identity)
    requires Inv(r, me)
    ensures Inv(Step(r, MigrateInfo(s, lastSeq), me), me)
  {
    if !r.info.canWrite {
      var states := [(s, lastSeq)];
      assert states[..|states| - 1] == [];
      assert Migrate(r.info.firstSeqs, []) == r.info.firstSeqs;
      var r' := Step(r, MigrateInfo(s, lastSeq), me);
      assert r'.info.firstSeqs == r.info.firstSeqs[s := NextSeq(lastSeq)];
      assert FirstInv(r'.info.firstSeqs, r'.received, r'.last, r'.offered);
    }
  }

  lemma RawKeeps(r: Room, data: string, active: bool, me: Identity)
    requires Inv(r, me)
    ensures Inv(Step(r, SendRaw(data, active), me), me)
  {
    RisingAppendRaw(r.info.out, [data]);
    assert AsRaw([data]) == [Raw(data)];
    var r' := Step(r, SendRaw(data, active), me);
    assert forall m :: Sequenced(m) in r'.info.out <==> Sequenced(m) in r.info.out;
  }

  lemma StepKeeps(r: Room, e: Event, me: Identity)
    requires Inv(r, me)
    ensures Inv(Step(r, e, me), me)
  {
    match e
    case Publish(m) => PublishKeeps(r, m, me);
    case PickRecipients(s) => PickKeeps(r, s, me);
    case OfferPending(s) => OfferKeeps(r, s, me);
    case Join =>
    case MigrateInfo(s, lastSeq) => MigrateKeeps(r, s, lastSeq, me);
    case ReplayEvent => ReplayKeeps(r, me);
    case SendRaw(data, active) => RawKeeps(r, data, active, me);
  }

  lemma {:induction false} RunKeepsInv(es: seq<Event>, me: Identity)
    ensures Inv(Run(es, me), me)
  {
    if es != [] {
      RunKeepsInv(es[..|es| - 1], me);
      StepKeeps(Run(es[..|es| - 1], me), es[|es| - 1], me);
    }
  }

  // ---------------------------------------------------------------------------------------
  // Main results
  // ---------------------------------------------------------------------------------------

  /** The number of times a message was handed to the data channel. */
  function Times(out: seq<Out>, m: Msg): nat {
    if out == [] then 0 else Times(out[..|out| - 1], m) + if out[|out| - 1] == Sequenced(m) then 1 else 0
  }

  lemma {:induction false} RisingMeansOnce(out: seq<Out>, m: Msg)
    requires Rising(out)
    ensures Times(out, m) == if Sequenced(m) in out then 1 else 0
  {
    if out != [] {
      RisingMeansOnce(out[..|out| - 1], m);
      assert out == out[..|out| - 1] + [out[|out| - 1]];
    }
  }

  /**
   Over every run: once the replay has happened, each message that was offered and is newer than what
   the previous node had delivered has been written exactly once; no message is ever written twice,
   none that is not addressed to the participant is written, and each sender's numbers rise.
   */
  lemma ExactlyOnce(es: seq<Event>, me: Identity)
    ensures var r := Run(es, me);
            && Rising(r.info.out)
            && (forall m :: Times(r.info.out, m) <= 1)
            && (forall m :: Times(r.info.out, m) == 1 ==> m in r.cache && Addressed(m, me))
            && (r.info.canWrite ==>
                  forall m :: m in r.offered && m.no > UpTo(r.received, m.sender) ==> Times(r.info.out, m) == 1)
  {
    RunKeepsInv(es, me);
    var r := Run(es, me);
    forall m
      ensures Times(r.info.out, m) == if Sequenced(m) in r.info.out then 1 else 0
    {
      RisingMeansOnce(r.info.out, m);
    }
  }

  /**
   A migrating participant starts after the last number it had received exactly when no message up to
   that number is offered live after the replay. The last 32-bit number wraps, and is left out.
   */
  lemma MigratedStartsAfterLastReceived(es: seq<Event>, me: Identity, s: ParticipantID)
    requires var r := Run(es, me); r.info.canWrite && s in r.received && r.received[s] < UINT32 - 1
    ensures var r := Run(es, me);
            (forall m :: Sequenced(m) in r.info.out && m.sender == s ==> m.no > r.received[s])
            <==> (forall m :: m in r.offeredLive && m.sender == s ==> m.no > r.received[s])
  {
    RunKeepsInv(es, me);
  }

  function Raws(out: seq<Out>): seq<string> {
    if out == [] then [] else Raws(out[..|out| - 1]) + if out[|out| - 1].Raw? then [out[|out| - 1].data] else []
  }

  function Bytes(ds: seq<string>): nat {
    if ds == [] then 0 else Bytes(ds[..|ds| - 1]) + |ds[|ds| - 1]|
  }

  lemma {:induction false} RawsAppend(a: seq<Out>, b: seq<Out>)
    ensures Raws(a + b) == Raws(a) + Raws(b)
    decreases |b|
  {
    if b == [] {
      assert a + b == a;
    } else {
      RawsAppend(a, b[..|b| - 1]);
      assert (a + b)[..|a + b| - 1] == a + b[..|b| - 1];
    }
  }

  lemma {:induction false} RawsOfBoth(ms: seq<Msg>, ds: seq<string>)
    ensures Raws(AsSequenced(ms)) == []
    ensures Raws(AsRaw(ds)) == ds
    decreases |ms| + |ds|
  {
    if ms != [] {
      RawsOfBoth(ms[..|ms| - 1], []);
      assert AsSequenced(ms)[..|ms| - 1] == AsSequenced(ms[..|ms| - 1]);
    }
    if ds != [] {
      RawsOfBoth([], ds[..|ds| - 1]);
      assert AsRaw(ds)[..|ds| - 1] == AsRaw(ds[..|ds| - 1]);
    }
  }

  ghost predicate RawInv(i: Info, taken: seq<string>) {
    && Raws(i.out) + i.held == taken
    && (i.canWrite ==> i.held == [])
    && i.heldBytes == Bytes(i.held) <= MAX_UNSEQUENCED_BYTES
  }

  lemma OfferKeepsRaw(i: Info, m: Msg, taken: seq<string>)
    requires RawInv(i, taken)
    ensures RawInv(Offer(i, m), taken)
  {
    RawsAppend(i.out, [Sequenced(m)]);
    assert Raws([Sequenced(m)]) == [];
  }

  lemma OneMoreRaw(out: seq<Out>, held: seq<string>, data: string)
    ensures Raws(out + [Raw(data)]) == Raws(out) + [data]
    ensures Bytes(held + [data]) == Bytes(held) + |data|
  {
    assert (out + [Raw(data)])[..|out|] == out;
    assert (held + [data])[..|held|] == held;
  }

  lemma HoldKeepsRaw(i: Info, data: string, taken: seq<string>)
    requires RawInv(i, taken) && !i.canWrite && i.heldBytes + |data| <= MAX_UNSEQUENCED_BYTES
    ensures RawInv(i.(held := i.held + [data], heldBytes := i.heldBytes + |data|), taken + [data])
  {
    OneMoreRaw(i.out, i.held, data);
    assert Raws(i.out) + (i.held + [data]) == taken + [data];
  }

  lemma WriteKeepsRaw(i: Info, data: string, taken: seq<string>)
    requires RawInv(i, taken) && i.canWrite
    ensures RawInv(i.(out := i.out + [Raw(data)]), taken + [data])
  {
    OneMoreRaw(i.out, i.held, data);
    assert Raws(i.out) + [data] + [] == taken + [data];
  }

  lemma ReplayKeepsRaw(i: Info, cache: seq<Msg>, taken: seq<string>, me: Identity)
    requires RawInv(i, taken)
    ensures RawInv(Replay(i, cache, me), taken)
  {
    var ms := Selected(cache, i.firstSeqs, me);
    RawsOfBoth(ms, i.held);
    RawsAppend(i.out, AsSequenced(ms));
    RawsAppend(i.out + AsSequenced(ms), AsRaw(i.held));
  }

  lemma StepKeepsRaw(r: Room, e: Event, me: Identity)
    requires RawInv(r.info, r.rawTaken)
    ensures RawInv(Step(r, e, me).info, Step(r, e, me).rawTaken)
  {
    match e
    case OfferPending(s) =>
      if s in r.pending {
        OfferKeepsRaw(r.info, r.pending[s].msg, r.rawTaken);
      }
    case ReplayEvent => ReplayKeepsRaw(r.info, r.cache, r.rawTaken, me);
    case SendRaw(data, active) =>
      if r.info.canWrite {
        WriteKeepsRaw(r.info, data, r.rawTaken);
      } else if r.info.heldBytes + |data| <= MAX_UNSEQUENCED_BYTES {
        HoldKeepsRaw(r.info, data, r.rawTaken);
      }
    case _ =>
  }

  /** Unsequenced messages: each one taken is written once and in order, or still held within the byte limit. */
  lemma {:induction false} RawKeptInOrder(es: seq<Event>, me: Identity)
    ensures RawInv(Run(es, me).info, Run(es, me).rawTaken)
  {
    if es != [] {
      RawKeptInOrder(es[..|es| - 1], me);
      StepKeepsRaw(Run(es[..|es| - 1], me), es[|es| - 1], me);
    }
  }

  // ---------------------------------------------------------------------------------------
  // From publishing to writing
  // ---------------------------------------------------------------------------------------

  lemma RunThen(es: seq<Event>, e: Event, me: Identity)
    ensures Run(es + [e], me) == Step(Run(es, me), e, me)
  {
    assert (es + [e])[..|es|] == es;
  }

  /** The highest number accepted of a publisher is that of a message in the cache. */
  ghost predicate LastIsCached(cache: seq<Msg>, last: map<ParticipantID, Seq32>) {
    forall s :: s in last ==> exists m :: m in cache && m.sender == s && m.no == last[s]
  }

  lemma CachedStays(cache: seq<Msg>, last: map<ParticipantID, Seq32>, m: Msg)
    requires LastIsCached(cache, last)
    ensures LastIsCached(cache + [m], last[m.sender := m.no])
  {
    var cache', last' := cache + [m], last[m.sender := m.no];
    forall s | s in last'
      ensures exists x :: x in cache' && x.sender == s && x.no == last'[s]
    {
      if s == m.sender {
        assert m in cache';
      } else {
        var x :| x in cache && x.sender == s && x.no == last[s];
        assert x in cache';
      }
    }
  }

  lemma {:induction false} RunCaches(es: seq<Event>, me: Identity)
    ensures LastIsCached(Run(es, me).cache, Run(es, me).last)
  {
    if es != [] {
      var r, e := Run(es[..|es| - 1], me), es[|es| - 1];
      RunCaches(es[..|es| - 1], me);
      if e.Publish? {
        CachedStays(r.cache, r.last, e.m);
      }
    }
  }

  /** No handler is at work for the sender, and the number is above all of that sender in the cache. */
  ghost predicate IsNext(r: Room, m: Msg) {
    m.sender !in r.pending && 0 < m.no && forall x :: x in r.cache && x.sender == m.sender ==> x.no < m.no
  }

  /** A message is cached exactly if it is the next of its sender; nothing else is, and nothing goes. */
  lemma CachedIffNext(es: seq<Event>, e: Event, me: Identity)
    ensures Run(es + [e], me).cache
            == Run(es, me).cache + if e.Publish? && IsNext(Run(es, me), e.m) then [e.m] else []
  {
    RunThen(es, e, me);
    RunKeepsInv(es, me);
    RunCaches(es, me);
    var r := Run(es, me);
    if e.Publish? && e.m.sender in r.last {
      var x :| x in r.cache && x.sender == e.m.sender && x.no == r.last[e.m.sender];
    }
  }

  ghost predicate Joined(es: seq<Event>) { Join in es }

  ghost predicate Replayed(es: seq<Event>) { ReplayEvent in es }

  lemma StepFlags(r: Room, e: Event, me: Identity)
    ensures Step(r, e, me).joined <==> r.joined || e == Join
    ensures Step(r, e, me).info.canWrite <==> r.info.canWrite || e == ReplayEvent
  {
  }

  lemma {:induction false} FlagsAre(es: seq<Event>, me: Identity)
    ensures Run(es, me).joined <==> Joined(es)
    ensures Run(es, me).info.canWrite <==> Replayed(es)
  {
    if es != [] {
      FlagsAre(es[..|es| - 1], me);
      StepFlags(Run(es[..|es| - 1], me), es[|es| - 1], me);
      assert es == es[..|es| - 1] + [es[|es| - 1]];
    }
  }

  /** The message was cached by the k-th event, after the participant had joined, and it is for the participant. */
  ghost predicate PublishedFor(es: seq<Event>, k: nat, m: Msg, me: Identity) {
    && k < |es| && es[k] == Publish(m) && IsNext(Run(es[..k], me), m) && Joined(es[..k])
    && (m.dests == [] || me in m.dests)
  }

  /** The handler of the message is still at work on it, and will offer it. */
  ghost predicate InHand(r: Room, m: Msg) {
    && m.sender in r.pending && r.pending[m.sender].msg == m
    && (r.pending[m.sender].Targeted? ==> r.pending[m.sender].target)
  }

  lemma StepKeepsInHand(r: Room, e: Event, m: Msg, me: Identity)
    requires r.joined && (m.dests == [] || me in m.dests) && (m in r.offered || InHand(r, m))
    ensures m in Step(r, e, me).offered || InHand(Step(r, e, me), m)
  {
  }

  /** Each message cached for a participant that had joined is offered to it, or about to be. */
  lemma {:induction false} PublishedIsOffered(es: seq<Event>, k: nat, m: Msg, me: Identity)
    requires PublishedFor(es, k, m, me)
    ensures m in Run(es, me).offered || InHand(Run(es, me), m)
    decreases |es|
  {
    var before, e := es[..|es| - 1], es[|es| - 1];
    FlagsAre(before, me);
    if k == |before| {
      CachedIffNext(before, e, me);
      assert es == before + [e];
      RunKeepsInv(before, me);
      RunCaches(before, me);
    } else {
      assert before[..k] == es[..k];
      PublishedIsOffered(before, k, m, me);
      assert Joined(before) by {
        assert Join in es[..k] && es[..k] <= before;
      }
      StepKeepsInHand(Run(before, me), e, m, me);
    }
  }

  /**
   From end to end: once the replay has happened and the handler is done with it, each message published for
   the participant after it had joined, and newer than what the previous node had delivered, has been written
   exactly once; whatever the interleaving.
   */
  lemma PublishedIsWrittenOnce(es: seq<Event>, k: nat, m: Msg, me: Identity)
    requires PublishedFor(es, k, m, me) && Replayed(es) && m.no > UpTo(Run(es, me).received, m.sender)
    requires !InHand(Run(es, me), m)
    ensures Times(Run(es, me).info.out, m) == 1
  {
    PublishedIsOffered(es, k, m, me);
    FlagsAre(es, me);
    ExactlyOnce(es, me);
  }

  lemma StepHolds(r: Room, e: Event, me: Identity)
    requires !r.info.canWrite && r.info.held == r.rawTaken && e != ReplayEvent
    ensures Step(r, e, me).info.held == Step(r, e, me).rawTaken
  {
  }

  /** Before the replay the unsequenced messages taken are all held. */
  lemma {:induction false} HeldUntilReplay(es: seq<Event>, me: Identity)
    requires !Replayed(es)
    ensures Run(es, me).info.held == Run(es, me).rawTaken && !Run(es, me).info.canWrite
  {
    FlagsAre(es, me);
    if es != [] {
      assert es == es[..|es| - 1] + [es[|es| - 1]];
      HeldUntilReplay(es[..|es| - 1], me);
      StepHolds(Run(es[..|es| - 1], me), es[|es| - 1], me);
    }
  }

  lemma StepTakesRaw(r: Room, e: Event, me: Identity)
    ensures Step(r, e, me).rawTaken == r.rawTaken +
              if e.SendRaw? && (if r.info.canWrite then e.active else r.info.heldBytes + |e.data| <= 100_000)
              then [e.data] else []
  {
  }

  /**
   An unsequenced message is taken exactly if, before the replay, it fits into the byte limit with those taken
   so far, and after it, the participant is active; no other event takes any.
   */
  lemma RawTakenIff(es: seq<Event>, e: Event, me: Identity)
    ensures var taken := Run(es, me).rawTaken;
            Run(es + [e], me).rawTaken == taken +
              if e.SendRaw? && (if Replayed(es) then e.active else Bytes(taken) + |e.data| <= 100_000)
              then [e.data] else []
  {
    RunThen(es, e, me);
    StepTakesRaw(Run(es, me), e, me);
    FlagsAre(es, me);
    RawKeptInOrder(es, me);
    if !Replayed(es) {
      HeldUntilReplay(es, me);
    }
  }

  /** A participant that has joined, and had received five messages of `s` on the old node. */
  function JoinedAtFive(s: ParticipantID): Room {
    NewRoom().(joined := true, info := NewInfo().(firstSeqs := map[s := 6]), received := map[s := 5])
  }

  lemma JoinsAtFive(s: ParticipantID, me: Identity)
    ensures Run([Join] + [MigrateInfo(s, 5)], me) == JoinedAtFive(s)
  {
    var states: seq<(ParticipantID, Seq32)> := [(s, 5)];
    assert states[..|states| - 1] == [] && Migrate(map[], []) == map[];
    RunThen([], Join, me);
    assert [] + [Join] == [Join];
    RunThen([Join], MigrateInfo(s, 5), me);
  }

  /** The fifth message is published again, and its handler is about to offer it. */
  function FiveInHand(s: ParticipantID): Room {
    var m := Msg(s, 5, [], "");
    JoinedAtFive(s).(cache := [m], last := map[s := 5], pending := map[s := Targeted(m, true)])
  }

  lemma TakesFiveInHand(es: seq<Event>, s: ParticipantID, me: Identity)
    requires Run(es, me) == JoinedAtFive(s)
    ensures Run(es + [Publish(Msg(s, 5, [], ""))] + [PickRecipients(s)], me) == FiveInHand(s)
  {
    var m := Msg(s, 5, [], "");
    RunThen(es, Publish(m), me);
    RunThen(es + [Publish(m)], PickRecipients(s), me);
    assert Run(es + [Publish(m)], me).pending == map[s := Cached(m)];
  }

  /** The replay passes over it, and its offer comes after that. */
  lemma ReplayPassesOverFive(s: ParticipantID, me: Identity)
    ensures var r := Step(Step(FiveInHand(s), ReplayEvent, me), OfferPending(s), me);
            r.received == map[s := 5] && r.info.out == [Sequenced(Msg(s, 5, [], ""))]
  {
    var r := FiveInHand(s);
    SelectedIsWanted(r.cache, r.info.firstSeqs, me);
    assert Selected(r.cache, r.info.firstSeqs, me) == [];
    assert Step(r, ReplayEvent, me).info.out == [] && Step(r, ReplayEvent, me).info.lastWritten == map[];
  }

  /** The failing case: a message the old node had delivered is being handled here when the replay runs. */
  lemma LateOfferIsWrittenAgain(s: ParticipantID, me: Identity)
    ensures var m := Msg(s, 5, [], "");
            var r := Run([Join] + [MigrateInfo(s, 5)] + [Publish(m)] + [PickRecipients(s)] + [ReplayEvent]
                + [OfferPending(s)], me);
            r.received == map[s := 5] && r.info.out == [Sequenced(m)]
  {
    var es := [Join] + [MigrateInfo(s, 5)] + [Publish(Msg(s, 5, [], ""))] + [PickRecipients(s)];
    JoinsAtFive(s, me);
    TakesFiveInHand([Join] + [MigrateInfo(s, 5)], s, me);
    RunThen(es, ReplayEvent, me);
    RunThen(es + [ReplayEvent], OfferPending(s), me);
    ReplayPassesOverFive(s, me);
  }
}
