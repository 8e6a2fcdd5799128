/**
 The batching of participant updates for a room: an order on sessions, a queue of one update an identity
 that synthesizes a disconnect when a session is superseded, and the chunks sent to each recipient.
 */
module ParticipantUpdates {
  import opened Prelude
  import ProtoBatch

  type Identity = string

  /** A ParticipantInfo; `id` names the message object, so that copies of equal content can be told apart. */
  datatype Info = Info(id: nat, sid: string, identity: Identity, joinedAt: int, joinedAtMs: int, version: nat,
                       isPublisher: bool, disconnected: bool)

  // ---------------------------------------------------------------------------------------
  // The order on sessions
  // ---------------------------------------------------------------------------------------

  predicate StringLess(a: string, b: string) {
    b != "" && (a == "" || a[0] < b[0] || (a[0] == b[0] && StringLess(a[1..], b[1..])))
  }

  lemma {:induction false} StringLessTotal(a: string, b: string)
    ensures a == b ==> !StringLess(a, b)
    ensures a != b ==> (StringLess(a, b) <==> !StringLess(b, a))
  {
    if a != "" && b != "" {
      StringLessTotal(a[1..], b[1..]);
      assert a == [a[0]] + a[1..] && b == [b[0]] + b[1..];
    }
  }

  lemma {:induction false} StringLessTransitive(a: string, b: string, c: string)
    requires StringLess(a, b) && StringLess(b, c)
    ensures StringLess(a, c)
  {
    if a != "" && a[0] == b[0] && b[0] == c[0] {
      StringLessTransitive(a[1..], b[1..], c[1..]);
    }
  }

  function CompareParticipant(a: Info, b: Info): int {
    if a.joinedAt != b.joinedAt then if a.joinedAt < b.joinedAt then -1 else 1
    else if a.joinedAtMs != 0 && b.joinedAtMs != 0 && a.joinedAtMs != b.joinedAtMs then
      if a.joinedAtMs < b.joinedAtMs then -1 else 1
    else if a.sid != b.sid then if StringLess(a.sid, b.sid) then -1 else 1
    else 0
  }

  predicate Older(a: Info, b: Info) { CompareParticipant(a, b) < 0 }

  /** Joined later, by seconds, then by milliseconds where both have them and they differ, then by session id. */
  predicate JoinedAfter(a: Info, b: Info) {
    || a.joinedAt > b.joinedAt
    || (&& a.joinedAt == b.joinedAt
        && if a.joinedAtMs == 0 || b.joinedAtMs == 0 || a.joinedAtMs == b.joinedAtMs
           then StringLess(b.sid, a.sid) else a.joinedAtMs > b.joinedAtMs)
  }

  /** The sign of the comparison tells which session joined later. */
  lemma CompareTellsLater(a: Info, b: Info)
    ensures CompareParticipant(a, b) > 0 <==> JoinedAfter(a, b)
    ensures CompareParticipant(a, b) < 0 <==> JoinedAfter(b, a)
    ensures Older(a, b) <==> JoinedAfter(b, a)
  {
    StringLessTotal(a.sid, b.sid);
  }

  /** The strings agree up to a place where the first ends or has the smaller character. */
  ghost predicate SmallerAt(a: string, b: string, k: int) {
    0 <= k <= |a| && k < |b| && a[..k] == b[..k] && (k == |a| || a[k] < b[k])
  }

  /** The order on session ids is the lexicographic one. */
  lemma {:induction false} StringLessIsLexicographic(a: string, b: string)
    ensures StringLess(a, b) <==> exists k :: SmallerAt(a, b, k)
  {
    if b != "" && (a == "" || a[0] < b[0]) {
      assert SmallerAt(a, b, 0);
    } else if a != "" && b != "" && a[0] == b[0] {
      StringLessIsLexicographic(a[1..], b[1..]);
      forall k
        ensures k > 0 ==> (SmallerAt(a, b, k) <==> SmallerAt(a[1..], b[1..], k - 1))
      {
        if 0 < k <= |a| && k <= |b| {
          assert a[..k] == [a[0]] + a[1..][..k - 1] && b[..k] == [b[0]] + b[1..][..k - 1];
        }
      }
      if StringLess(a, b) {
        var k :| SmallerAt(a[1..], b[1..], k);
        assert SmallerAt(a, b, k + 1);
      }
      if k :| SmallerAt(a, b, k) {
        assert SmallerAt(a[1..], b[1..], k - 1);
      }
    }
  }

  /** Swapping the sessions swaps the answer, whatever join times are set; and no two sids compare equal. */
  lemma CompareIsAntisymmetric(a: Info, b: Info)
    ensures CompareParticipant(a, b) == -CompareParticipant(b, a)
    ensures a.sid != b.sid ==> CompareParticipant(a, b) != 0
  {
    StringLessTotal(a.sid, b.sid);
  }

  /** The first has no millisecond join time, and the other two are ordered by theirs against their sids. */
  predicate Crossed(without: Info, earlier: Info, later: Info) {
    without.joinedAtMs == 0 && earlier.joinedAtMs != 0 && later.joinedAtMs != 0 && earlier.joinedAtMs < later.joinedAtMs
  }

  /**
   Being older is transitive except where, of three sessions that joined within one second, exactly one has
   no millisecond join time, and the other two are ordered one way by theirs and the other way by their sids.
   */
  lemma OlderIsTransitiveUnlessCrossed(a: Info, b: Info, c: Info)
    requires Older(a, b) && Older(b, c)
    ensures Older(a, c) <==> !(&& a.joinedAt == b.joinedAt == c.joinedAt
                               && (|| Crossed(b, c, a)
                                   || (Crossed(a, b, c) && !StringLess(a.sid, c.sid))
                                   || (Crossed(c, a, b) && !StringLess(a.sid, c.sid))))
  {
    StringLessTotal(a.sid, c.sid);
    if StringLess(a.sid, b.sid) && StringLess(b.sid, c.sid) {
      StringLessTransitive(a.sid, b.sid, c.sid);
    }
  }

  /** With millisecond join times set, being older is a strict total order on sessions. */
  lemma OlderIsStrictTotal(a: Info, b: Info, c: Info)
    requires a.joinedAtMs != 0 && b.joinedAtMs != 0 && c.joinedAtMs != 0
    ensures !Older(a, a)
    ensures a.sid != b.sid ==> (Older(a, b) <==> !Older(b, a))
    ensures Older(a, b) && Older(b, c) ==> Older(a, c)
  {
    CompareIsAntisymmetric(a, b);
    if Older(a, b) && Older(b, c) {
      OlderIsTransitiveUnlessCrossed(a, b, c);
    }
  }

  /** Without them sessions can be older than one another in a circle. */
  lemma OlderCanCycle()
    ensures var a, b, c := Info(0, "a", "", 0, 5, 0, false, false), Info(1, "b", "", 0, 0, 0, false, false),
        Info(2, "c", "", 0, 3, 0, false, false);
            Older(a, b) && Older(b, c) && Older(c, a)
  {
  }

  // ---------------------------------------------------------------------------------------
  // The queue
  // ---------------------------------------------------------------------------------------

  datatype CloseReason = DuplicateIdentity | OtherReason(code: nat)

  datatype Update = Update(info: Info, synthesized: bool, closeReason: CloseReason)

  type Cache = map<Identity, Update>

  /** A call of PushAndDequeueUpdates; `current` is what the room's own participant of that identity says. */
  datatype Arrival = Arrival(info: Info, closeReason: CloseReason, immediate: bool, current: Option<Info>)

  datatype Verdict = Drop | Take | Switch

  function Judge(cache: Cache, a: Arrival): Verdict {
    if a.info.identity in cache then
      var queued := cache[a.info.identity].info;
      if a.info.sid == queued.sid then if a.info.version < queued.version then Drop else Take
      else if Older(queued, a.info) then Switch else Drop
    else if a.current.Some? && CompareParticipant(a.current.value, a.info) > 0 then Drop
    else Take
  }

  function Disconnected(u: Update): Update { u.(info := u.info.(disconnected := true), synthesized := true) }

  function Push(cache: Cache, a: Arrival): (Cache, seq<Update>) {
    var i, u := a.info.identity, Update(a.info, false, a.closeReason);
    match Judge(cache, a)
    case Drop => (cache, [])
    case Switch => (cache - {i}, [Disconnected(cache[i]), u])
    case Take => if a.immediate || a.info.isPublisher then (cache - {i}, [u]) else (cache[i := u], [])
  }

  /**
   There is newer news: of the same session queued, a higher version; of another session queued, that one, unless
   the update's session joined after it; with nothing queued, the session the room itself has.
   */
  predicate Outdated(cache: Cache, a: Arrival) {
    var i := a.info.identity;
    if i !in cache then a.current.Some? && JoinedAfter(a.current.value, a.info)
    else if cache[i].info.sid == a.info.sid then a.info.version < cache[i].info.version
    else !JoinedAfter(a.info, cache[i].info)
  }

  /** An update is dropped exactly if it is outdated, and switched to if its session comes after the queued one. */
  lemma DroppedIffOutdated(cache: Cache, a: Arrival)
    ensures Judge(cache, a) == Drop <==> Outdated(cache, a)
    ensures Judge(cache, a) == Switch <==>
            !Outdated(cache, a) && a.info.identity in cache && cache[a.info.identity].info.sid != a.info.sid
  {
    if a.info.identity in cache {
      CompareTellsLater(cache[a.info.identity].info, a.info);
    }
    if a.current.Some? {
      CompareTellsLater(a.current.value, a.info);
    }
  }

  class Room {
    var batchedUpdates: Cache

    constructor ()
      ensures batchedUpdates == map[]
    {
      batchedUpdates := map[];
    }

    method PushAndDequeueUpdates(a: Arrival) returns (updates: seq<Update>)
      modifies this
      ensures (batchedUpdates, updates) == Push(old(batchedUpdates), a)
      ensures var was, i, u := old(batchedUpdates), a.info.identity, Update(a.info, false, a.closeReason);
              if Outdated(was, a) then batchedUpdates == was && updates == []
              else if i in was && was[i].info.sid != a.info.sid then
                && batchedUpdates == was - {i} && |updates| == 2 && updates[1] == u
                && updates[0] == Update(was[i].info.(disconnected := true), true, was[i].closeReason)
              else if a.immediate || a.info.isPublisher then batchedUpdates == was - {i} && updates == [u]
              else batchedUpdates == was[i := u] && updates == []
    {
      DroppedIffOutdated(batchedUpdates, a);
      updates := [];
      var identity := a.info.identity;
      var shouldSend := a.immediate || a.info.isPublisher;
      if identity in batchedUpdates {
        var existing := batchedUpdates[identity];
        if a.info.sid == existing.info.sid {
          if a.info.version < existing.info.version {
            return [];
          }
        } else if CompareParticipant(existing.info, a.info) < 0 {
          shouldSend := true;
          existing := existing.(info := existing.info.(disconnected := true), synthesized := true);
          updates := updates + [existing];
        } else {
          return [];
        }
      } else if a.current.Some? && CompareParticipant(a.current.value, a.info) > 0 {
        return [];
      }
      if shouldSend {
        batchedUpdates := batchedUpdates - {identity};
        updates := updates + [Update(a.info, false, a.closeReason)];
      } else {
        batchedUpdates := batchedUpdates[identity := Update(a.info, false, a.closeReason)];
      }
      assert updates == Push(old(batchedUpdates), a).1;
    }

    /** The flush of changeUpdateWorker: everything queued, in the order the map happens to be walked. */
    method Flush() returns (updates: seq<Update>)
      modifies this
      ensures batchedUpdates == map[]
      ensures exists order :: Orders(order, old(batchedUpdates)) && updates == Values(old(batchedUpdates), order)
    {
      var rest := batchedUpdates;
      ghost var order: seq<Identity> := [];
      updates := [];
      while rest != map[]
        invariant rest.Keys <= batchedUpdates.Keys && forall i :: i in rest ==> rest[i] == batchedUpdates[i]
        invariant NoRepeats(order) && forall i :: i in order <==> i in batchedUpdates && i !in rest
        invariant updates == Values(batchedUpdates, order)
        decreases |rest|
      {
        var i :| i in rest;
        assert (order + [i])[..|order|] == order;
        assert |(rest - {i}).Keys| < |rest.Keys| by {
          assert (rest - {i}).Keys == rest.Keys - {i};
        }
        updates := updates + [rest[i]];
        order := order + [i];
        rest := rest - {i};
      }
      assert Orders(order, batchedUpdates);
      batchedUpdates := map[];
    }
  }

  predicate NoRepeats(order: seq<Identity>) { forall i, j :: 0 <= i < j < |order| ==> order[i] != order[j] }

  /** An order in which the map can be walked. */
  predicate Orders(order: seq<Identity>, cache: Cache) {
    NoRepeats(order) && (forall i :: i in order ==> i in cache) && (forall i :: i in cache ==> i in order)
  }

  function Values(cache: Cache, order: seq<Identity>): seq<Update>
    requires forall i :: i in order ==> i in cache
  {
    if order == [] then [] else Values(cache, order[..|order| - 1]) + [cache[order[|order| - 1]]]
  }

  // ---------------------------------------------------------------------------------------
  // Runs
  // ---------------------------------------------------------------------------------------

  datatype Event = Pushed(a: Arrival) | Flushed(order: seq<Identity>)

  /**
   The queue with its history: what has been sent on, what was accepted, what was replaced by what, and
   which queued session was superseded by which.
   */
  datatype History = History(cache: Cache, emitted: seq<Update>, accepted: seq<Info>, replaced: seq<(Info, Info)>,
                             superseded: seq<(Info, Info)>)

  /** Another session of the identity is queued, and it is the older one. */
  predicate Supersedes(cache: Cache, i: Info) {
    i.identity in cache && cache[i.identity].info.sid != i.sid && Older(cache[i.identity].info, i)
  }

  /** The session this update supersedes, if any, with the update. */
  function Superseded(cache: Cache, i: Info): seq<(Info, Info)> {
    if Supersedes(cache, i) then [(cache[i.identity].info, i)] else []
  }

  function Step(h: History, e: Event): History {
    match e
    case Pushed(a) =>
      var i, (cache, updates) := a.info.identity, Push(h.cache, a);
      if Judge(h.cache, a) == Drop then h
      else History(cache, h.emitted + updates, h.accepted + [a.info],
                   h.replaced + (if Judge(h.cache, a) == Take && i in h.cache then [(h.cache[i].info, a.info)] else []),
                   h.superseded + Superseded(h.cache, a.info))
    case Flushed(order) =>
      if !Orders(order, h.cache) then h else h.(cache := map[], emitted := h.emitted + Values(h.cache, order))
  }

  function Run(es: seq<Event>): History {
    if es == [] then History(map[], [], [], [], []) else Step(Run(es[..|es| - 1]), es[|es| - 1])
  }

  // ---------------------------------------------------------------------------------------
  // Nothing is lost or sent twice
  // ---------------------------------------------------------------------------------------

  function One(i: Info, id: nat): nat { if i.id == id then 1 else 0 }

  /** How many messages of the sequence are the one named `id`. */
  function Times(infos: seq<Info>, id: nat): nat {
    if infos == [] then 0 else Times(infos[..|infos| - 1], id) + One(infos[|infos| - 1], id)
  }

  function Infos(us: seq<Update>): seq<Info> { seq(|us|, k requires 0 <= k < |us| => us[k].info) }

  function Olds(rs: seq<(Info, Info)>): seq<Info> { seq(|rs|, k requires 0 <= k < |rs| => rs[k].0) }

  /** How many of the entries under these keys hold the message named `id`. */
  ghost function HeldIn(keys: set<Identity>, cache: Cache, id: nat): nat
    requires keys <= cache.Keys
  {
    if keys == {} then 0 else
    var i :| i in keys;
    One(cache[i].info, id) + HeldIn(keys - {i}, cache, id)
  }

  ghost function Held(cache: Cache, id: nat): nat { HeldIn(cache.Keys, cache, id) }

  lemma {:induction false} TimesConcat(a: seq<Info>, b: seq<Info>, id: nat)
    ensures Times(a + b, id) == Times(a, id) + Times(b, id)
  {
    if b == [] {
      assert a + b == a;
    } else {
      TimesConcat(a, b[..|b| - 1], id);
      assert (a + b)[..|a + b| - 1] == a + b[..|b| - 1];
    }
  }

  lemma TimesOfOne(i: Info, id: nat)
    ensures Times([i], id) == One(i, id)
  {
    assert [i][..0] == [];
  }

  lemma {:induction false} HeldInWithout(keys: set<Identity>, cache: Cache, id: nat, i: Identity)
    requires i in keys && keys <= cache.Keys
    ensures HeldIn(keys, cache, id) == One(cache[i].info, id) + HeldIn(keys - {i}, cache, id)
  {
    var j :| j in keys && HeldIn(keys, cache, id) == One(cache[j].info, id) + HeldIn(keys - {j}, cache, id);
    if i != j {
      HeldInWithout(keys - {j}, cache, id, i);
      HeldInWithout(keys - {i}, cache, id, j);
      assert keys - {j} - {i} == keys - {i} - {j};
    }
  }

  lemma {:induction false} HeldInSame(keys: set<Identity>, c: Cache, d: Cache, id: nat)
    requires keys <= c.Keys && keys <= d.Keys && forall i :: i in keys ==> c[i] == d[i]
    ensures HeldIn(keys, c, id) == HeldIn(keys, d, id)
  {
    if keys != {} {
      var i :| i in keys;
      HeldInWithout(keys, c, id, i);
      HeldInWithout(keys, d, id, i);
      HeldInSame(keys - {i}, c, d, id);
    }
  }

  lemma HeldMinus(cache: Cache, i: Identity, id: nat)
    ensures Held(cache, id) == Held(cache - {i}, id) + if i in cache then One(cache[i].info, id) else 0
  {
    assert (cache - {i}).Keys == cache.Keys - {i};
    HeldInSame(cache.Keys - {i}, cache, cache - {i}, id);
    if i in cache {
      HeldInWithout(cache.Keys, cache, id, i);
    } else {
      assert cache.Keys - {i} == cache.Keys;
    }
  }

  lemma HeldWith(cache: Cache, i: Identity, u: Update, id: nat)
    ensures Held(cache[i := u], id) == Held(cache - {i}, id) + One(u.info, id)
  {
    HeldMinus(cache[i := u], i, id);
    assert cache[i := u] - {i} == cache - {i};
  }

  lemma {:induction false} TimesOfValues(cache: Cache, order: seq<Identity>, keys: set<Identity>, id: nat)
    requires NoRepeats(order) && keys <= cache.Keys && forall i :: i in order <==> i in keys
    ensures Times(Infos(Values(cache, order)), id) == HeldIn(keys, cache, id)
    decreases |order|
  {
    if order == [] {
      assert keys == {};
    } else {
      var init, last := order[..|order| - 1], order[|order| - 1];
      assert order == init + [last];
      assert forall i :: i in init <==> i in keys - {last};
      TimesOfValues(cache, init, keys - {last}, id);
      HeldInWithout(keys, cache, id, last);
      var vs := Values(cache, order);
      assert Infos(vs)[..|vs| - 1] == Infos(Values(cache, init));
    }
  }

  ghost predicate Balanced(h: History, id: nat) {
    Times(h.accepted, id) == Times(Infos(h.emitted), id) + Times(Olds(h.replaced), id) + Held(h.cache, id)
  }

  lemma PushBalance(cache: Cache, a: Arrival, id: nat)
    requires Judge(cache, a) != Drop
    ensures var (cache', updates) := Push(cache, a);
            var i := a.info.identity;
            Held(cache, id) + One(a.info, id) ==
            Held(cache', id) + Times(Infos(updates), id) + if Judge(cache, a) == Take && i in cache
                then One(cache[i].info, id) else 0
  {
    var i, u := a.info.identity, Update(a.info, false, a.closeReason);
    HeldMinus(cache, i, id);
    HeldWith(cache, i, u, id);
    TimesOfOne(a.info, id);
    assert Infos([u]) == [a.info];
    if Judge(cache, a) == Switch {
      var d := Disconnected(cache[i]);
      TimesOfOne(d.info, id);
      TimesConcat([d.info], [a.info], id);
      assert Infos([d, u]) == [d.info] + [a.info];
    }
  }

  lemma EmittedTimes(us: seq<Update>, vs: seq<Update>, id: nat)
    ensures Times(Infos(us + vs), id) == Times(Infos(us), id) + Times(Infos(vs), id)
  {
    assert Infos(us + vs) == Infos(us) + Infos(vs);
    TimesConcat(Infos(us), Infos(vs), id);
  }

  lemma ReplacedTimes(rs: seq<(Info, Info)>, r: (Info, Info), id: nat)
    ensures Times(Olds(rs + [r]), id) == Times(Olds(rs), id) + One(r.0, id)
  {
    assert Olds(rs + [r]) == Olds(rs) + [r.0];
    TimesConcat(Olds(rs), [r.0], id);
    TimesOfOne(r.0, id);
  }

  lemma PushBalances(h: History, a: Arrival, id: nat)
    requires Balanced(h, id)
    ensures Balanced(Step(h, Pushed(a)), id)
  {
    if Judge(h.cache, a) != Drop {
      var i := a.info.identity;
      PushBalance(h.cache, a, id);
      TimesConcat(h.accepted, [a.info], id);
      TimesOfOne(a.info, id);
      EmittedTimes(h.emitted, Push(h.cache, a).1, id);
      if Judge(h.cache, a) == Take && i in h.cache {
        ReplacedTimes(h.replaced, (h.cache[i].info, a.info), id);
      } else {
        assert h.replaced + [] == h.replaced;
      }
    }
  }

  lemma FlushBalances(h: History, order: seq<Identity>, id: nat)
    requires Balanced(h, id)
    ensures Balanced(Step(h, Flushed(order)), id)
  {
    if Orders(order, h.cache) {
      TimesOfValues(h.cache, order, h.cache.Keys, id);
      EmittedTimes(h.emitted, Values(h.cache, order), id);
    }
  }

  /** What is queued was accepted as it is, under its identity. */
  ghost predicate Queued(h: History) {
    forall i :: i in h.cache ==>
        h.cache[i].info in h.accepted && h.cache[i].info.identity == i && !h.cache[i].synthesized
  }

  /** What is sent was accepted, and is as it was but for the state of a synthesized disconnect. */
  ghost predicate Genuine(u: Update, accepted: seq<Info>) {
    if u.synthesized then exists a :: a in accepted && u.info == a.(disconnected := true) else u.info in accepted
  }

  /** An update follows the one it replaces: of the same session, and no older. */
  predicate Follows(earlier: Info, later: Info) {
    later.identity == earlier.identity && later.sid == earlier.sid && earlier.version <= later.version
  }

  /** A disconnect was synthesized for the session this update is the switch from. */
  predicate SwitchesTo(u: Update, next: Update) {
    && !next.synthesized && u.info.disconnected && u.info.identity == next.info.identity && u.info.sid != next.info.sid
    && Older(u.info, next.info)
  }

  ghost predicate Adjacent(us: seq<Update>) {
    forall k :: 0 <= k < |us| && us[k].synthesized ==> k + 1 < |us| && SwitchesTo(us[k], us[k + 1])
  }

  ghost predicate Sound(h: History) {
    && Queued(h)
    && (forall u :: u in h.emitted ==> Genuine(u, h.accepted))
    && (forall r :: r in h.replaced ==> Follows(r.0, r.1) && r.0 in h.accepted && r.1 in h.accepted)
    && Adjacent(h.emitted)
  }

  lemma GenuineStays(u: Update, accepted: seq<Info>, a: Info)
    requires Genuine(u, accepted)
    ensures Genuine(u, accepted + [a])
  {
    if u.synthesized {
      var b :| b in accepted && u.info == b.(disconnected := true);
      assert b in accepted + [a];
    }
  }

  lemma PushIsSound(h: History, a: Arrival)
    requires Queued(h) && Judge(h.cache, a) != Drop
    ensures var updates := Push(h.cache, a).1;
            Adjacent(updates) && forall u :: u in updates ==> Genuine(u, h.accepted + [a.info])
  {
    if Judge(h.cache, a) == Switch {
      var q := h.cache[a.info.identity];
      assert q.info in h.accepted + [a.info];
    }
  }

  lemma {:induction false} ValuesMembers(cache: Cache, order: seq<Identity>)
    requires forall i :: i in order ==> i in cache
    ensures forall u :: u in Values(cache, order) ==> exists i :: i in order && cache[i] == u
  {
    if order != [] {
      var init := order[..|order| - 1];
      ValuesMembers(cache, init);
      assert order == init + [order[|order| - 1]];
    }
  }

  lemma AdjacentConcat(a: seq<Update>, b: seq<Update>)
    requires Adjacent(a) && Adjacent(b)
    ensures Adjacent(a + b)
  {
    forall k | 0 <= k < |a + b| && (a + b)[k].synthesized
      ensures k + 1 < |a + b| && SwitchesTo((a + b)[k], (a + b)[k + 1])
    {
      if k < |a| {
        assert a[k].synthesized;
      } else {
        assert b[k - |a|].synthesized;
      }
    }
  }

  lemma PushStaysSound(h: History, a: Arrival)
    requires Sound(h)
    ensures Sound(Step(h, Pushed(a)))
  {
    if Judge(h.cache, a) != Drop {
      PushIsSound(h, a);
      AdjacentConcat(h.emitted, Push(h.cache, a).1);
      forall u | u in h.emitted
        ensures Genuine(u, h.accepted + [a.info])
      {
        GenuineStays(u, h.accepted, a.info);
      }
    }
  }

  lemma FlushStaysSound(h: History, order: seq<Identity>)
    requires Sound(h)
    ensures Sound(Step(h, Flushed(order)))
  {
    if Orders(order, h.cache) {
      var vs := Values(h.cache, order);
      ValuesMembers(h.cache, order);
      assert forall u :: u in vs ==> !u.synthesized && Genuine(u, h.accepted);
      AdjacentConcat(h.emitted, vs);
    }
  }

  lemma {:induction false} RunIsSound(es: seq<Event>)
    ensures Sound(Run(es))
  {
    if es != [] {
      RunIsSound(es[..|es| - 1]);
      match es[|es| - 1]
      case Pushed(a) => PushStaysSound(Run(es[..|es| - 1]), a);
      case Flushed(order) => FlushStaysSound(Run(es[..|es| - 1]), order);
    }
  }

  lemma {:induction false} RunIsBalanced(es: seq<Event>, id: nat)
    ensures Balanced(Run(es), id)
  {
    if es != [] {
      RunIsBalanced(es[..|es| - 1], id);
      match es[|es| - 1]
      case Pushed(a) => PushBalances(Run(es[..|es| - 1]), a, id);
      case Flushed(order) => FlushBalances(Run(es[..|es| - 1]), order, id);
    }
  }

  /**
   Over any run, message by message: what was accepted is what was sent, what was replaced in the queue and
   what is still queued; and a message is replaced only by one of its session that is no older.
   */
  lemma AcceptedIsAccountedFor(es: seq<Event>, id: nat)
    ensures var h := Run(es);
            Times(h.accepted, id) == Times(Infos(h.emitted), id) + Times(Olds(h.replaced), id) + Held(h.cache, id)
    ensures forall r ::
        r in Run(es).replaced ==> Follows(r.0, r.1) && r.0 in Run(es).accepted && r.1 in Run(es).accepted
    ensures forall u :: u in Run(es).emitted ==> Genuine(u, Run(es).accepted)
  {
    RunIsSound(es);
    RunIsBalanced(es, id);
  }

  lemma RunThen(es: seq<Event>, e: Event)
    ensures Run(es + [e]) == Step(Run(es), e)
  {
    assert (es + [e])[..|es|] == es;
  }

  /** The updates pushed that were not outdated when they came, in order. */
  function News(es: seq<Event>): seq<Info> {
    if es == [] then []
    else
      var before, e := es[..|es| - 1], es[|es| - 1];
      News(before) + if e.Pushed? && !Outdated(Run(before).cache, e.a) then [e.a.info] else []
  }

  /** Over any run exactly these are accepted. */
  lemma {:induction false} AcceptedIsNews(es: seq<Event>)
    ensures Run(es).accepted == News(es)
  {
    if es != [] {
      var before, e := es[..|es| - 1], es[|es| - 1];
      AcceptedIsNews(before);
      if e.Pushed? {
        DroppedIffOutdated(Run(before).cache, e.a);
      }
    }
  }

  predicate SameSession(a: Info, b: Info) { a.identity == b.identity && a.sid == b.sid }

  ghost predicate IsQueued(cache: Cache, i: Info) { i.identity in cache && cache[i.identity].info == i }

  /** Sent as it is, or as a synthesized disconnect. */
  ghost predicate WasSent(emitted: seq<Update>, i: Info) {
    exists k :: 0 <= k < |emitted| &&
        emitted[k].info == if emitted[k].synthesized then i.(disconnected := true) else i
  }

  /** The update, or one of its session that is no older, is queued or was sent. */
  ghost predicate GetsThrough(h: History, i: Info) {
    exists j :: j in h.accepted && SameSession(i, j) && i.version <= j.version
                && (IsQueued(h.cache, j) || WasSent(h.emitted, j))
  }

  lemma SentStays(emitted: seq<Update>, more: seq<Update>, i: Info)
    ensures WasSent(emitted, i) ==> WasSent(emitted + more, i)
    ensures WasSent(more, i) ==> WasSent(emitted + more, i)
  {
    if WasSent(emitted, i) {
      var k :| 0 <= k < |emitted| && emitted[k].info == if emitted[k].synthesized then i.(disconnected := true) else i;
      assert (emitted + more)[k] == emitted[k];
    }
    if WasSent(more, i) {
      var k :| 0 <= k < |more| && more[k].info == if more[k].synthesized then i.(disconnected := true) else i;
      assert (emitted + more)[|emitted| + k] == more[k];
    }
  }

  /** After a push that is accepted, what it brings is queued or sent, and so is what was queued, unless replaced. */
  lemma PushGetsThrough(cache: Cache, a: Arrival)
    requires Judge(cache, a) != Drop
    ensures var (cache', updates) := Push(cache, a);
            && (IsQueued(cache', a.info) || WasSent(updates, a.info))
            && forall j :: IsQueued(cache, j) && !cache[j.identity].synthesized ==>
                 || IsQueued(cache', j) || WasSent(updates, j)
                 || (SameSession(j, a.info) && j.version <= a.info.version)
  {
    var i, u, updates := a.info.identity, Update(a.info, false, a.closeReason), Push(cache, a).1;
    if updates != [] {
      assert updates[|updates| - 1] == u;
    }
    if Judge(cache, a) == Switch {
      assert updates[0].info == cache[i].info.(disconnected := true);
    }
  }

  lemma ValuesSend(cache: Cache, order: seq<Identity>, j: Info)
    requires Orders(order, cache) && IsQueued(cache, j) && !cache[j.identity].synthesized
    ensures WasSent(Values(cache, order), j)
  {
    var k :| 0 <= k < |order| && order[k] == j.identity;
    ValueAt(cache, order, k);
  }

  lemma {:induction false} ValueAt(cache: Cache, order: seq<Identity>, k: nat)
    requires k < |order| && forall i :: i in order ==> i in cache
    ensures |Values(cache, order)| == |order| && Values(cache, order)[k] == cache[order[k]]
  {
    if k < |order| - 1 {
      ValueAt(cache, order[..|order| - 1], k);
    } else {
      ValuesLength(cache, order[..k]);
    }
  }

  lemma {:induction false} ValuesLength(cache: Cache, order: seq<Identity>)
    requires forall i :: i in order ==> i in cache
    ensures |Values(cache, order)| == |order|
  {
    if order != [] {
      ValuesLength(cache, order[..|order| - 1]);
    }
  }

  lemma StepGetsThrough(h: History, e: Event, i: Info)
    requires Queued(h) && GetsThrough(h, i)
    ensures GetsThrough(Step(h, e), i)
  {
    var h' := Step(h, e);
    var j :| j in h.accepted && SameSession(i, j) && i.version <= j.version
        && (IsQueued(h.cache, j) || WasSent(h.emitted, j));
    match e
    case Pushed(a) => {
      if Judge(h.cache, a) != Drop {
        PushGetsThrough(h.cache, a);
        SentStays(h.emitted, Push(h.cache, a).1, j);
        SentStays(h.emitted, Push(h.cache, a).1, a.info);
        assert a.info in h'.accepted && j in h'.accepted;
      }
    }
    case Flushed(order) => {
      if Orders(order, h.cache) {
        if IsQueued(h.cache, j) {
          ValuesSend(h.cache, order, j);
        }
        SentStays(h.emitted, Values(h.cache, order), j);
      }
    }
  }

  /**
   Over any run: of each update accepted, it or one of its session that is no older is queued or was sent; so
   the newest one is, and none is lost to an older one.
   */
  lemma {:induction false} NewsGetsThrough(es: seq<Event>, i: Info)
    requires i in News(es)
    ensures GetsThrough(Run(es), i)
  {
    var before, e := es[..|es| - 1], es[|es| - 1];
    RunIsSound(before);
    AcceptedIsNews(es);
    if i in News(before) {
      NewsGetsThrough(before, i);
      StepGetsThrough(Run(before), e, i);
    } else {
      DroppedIffOutdated(Run(before).cache, e.a);
      PushGetsThrough(Run(before).cache, e.a);
      SentStays(Run(before).emitted, Push(Run(before).cache, e.a).1, i);
      assert i in Run(es).accepted;
    }
  }

  /** Each synthesized disconnect that was sent, with what was sent right after it. */
  function Switches(us: seq<Update>): seq<(Info, Info)> {
    if |us| < 2 then []
    else
      var n := |us| - 1;
      Switches(us[..n]) + if us[n - 1].synthesized then [(us[n - 1].info, us[n].info)] else []
  }

  /** What is to be sent for superseded sessions: their last info, disconnected, and the successor. */
  function Signals(ps: seq<(Info, Info)>): seq<(Info, Info)> {
    seq(|ps|, k requires 0 <= k < |ps| => (ps[k].0.(disconnected := true), ps[k].1))
  }

  lemma {:induction false} SwitchesConcat(us: seq<Update>, vs: seq<Update>)
    requires us != [] ==> !us[|us| - 1].synthesized
    ensures Switches(us + vs) == Switches(us) + Switches(vs)
  {
    if vs == [] {
      assert us + vs == us;
    } else {
      var all, init := us + vs, vs[..|vs| - 1];
      SwitchesConcat(us, init);
      assert all[..|all| - 1] == us + init;
    }
  }

  lemma {:induction false} NoSwitches(us: seq<Update>)
    requires forall u :: u in us ==> !u.synthesized
    ensures Switches(us) == []
  {
    if |us| >= 2 {
      NoSwitches(us[..|us| - 1]);
    }
  }

  /** One push sends exactly the switch it owes, if any. */
  lemma PushSwitches(h: History, a: Arrival)
    requires Queued(h)
    ensures Judge(h.cache, a) == Drop ==> Superseded(h.cache, a.info) == []
    ensures Judge(h.cache, a) != Drop ==> Switches(Push(h.cache, a).1) == Signals(Superseded(h.cache, a.info))
  {
    var us := Push(h.cache, a).1;
    if Judge(h.cache, a) == Switch {
      assert us[..1] == [us[0]];
      assert Switches(us[..1]) == [];
    }
  }

  lemma LastIsReal(us: seq<Update>)
    requires Adjacent(us) && us != []
    ensures !us[|us| - 1].synthesized
  {
  }

  lemma SignalsConcat(ps: seq<(Info, Info)>, qs: seq<(Info, Info)>)
    ensures Signals(ps + qs) == Signals(ps) + Signals(qs)
  {
  }

  lemma StepSwitches(h: History, e: Event)
    requires Sound(h) && Switches(h.emitted) == Signals(h.superseded)
    ensures Switches(Step(h, e).emitted) == Signals(Step(h, e).superseded)
  {
    if h.emitted != [] {
      LastIsReal(h.emitted);
    }
    match e
    case Pushed(a) => {
      PushSwitches(h, a);
      SwitchesConcat(h.emitted, Push(h.cache, a).1);
      SignalsConcat(h.superseded, Superseded(h.cache, a.info));
    }
    case Flushed(order) => {
      if Orders(order, h.cache) {
        var vs := Values(h.cache, order);
        ValuesMembers(h.cache, order);
        NoSwitches(vs);
        SwitchesConcat(h.emitted, vs);
      }
    }
  }

  lemma {:induction false} SwitchAt(us: seq<Update>, j: nat) returns (k: nat)
    requires j < |Switches(us)|
    ensures k + 1 < |us| && us[k].synthesized && (us[k].info, us[k + 1].info) == Switches(us)[j]
  {
    var init := us[..|us| - 1];
    if j < |Switches(init)| {
      k := SwitchAt(init, j);
    } else {
      k := |us| - 2;
    }
  }

  lemma {:induction false} RunSwitches(es: seq<Event>)
    ensures Switches(Run(es).emitted) == Signals(Run(es).superseded)
  {
    if es != [] {
      RunSwitches(es[..|es| - 1]);
      RunIsSound(es[..|es| - 1]);
      StepSwitches(Run(es[..|es| - 1]), es[|es| - 1]);
    }
  }

  /**
   Over any run the synthesized disconnects sent are, in order and once each, those of the sessions that were
   superseded while queued, each immediately before its successor; and there are no others.
   */
  lemma SwitchIsSignalled(es: seq<Event>)
    ensures Switches(Run(es).emitted) == Signals(Run(es).superseded)
    ensures forall p :: p in Run(es).superseded ==>
              exists k :: 0 <= k < |Run(es).emitted| - 1 && IsSwitch(Run(es).emitted[k], Run(es).emitted[k + 1], p)
    ensures forall k :: 0 <= k < |Run(es).emitted| && Run(es).emitted[k].synthesized ==>
              k + 1 < |Run(es).emitted| && SwitchesTo(Run(es).emitted[k], Run(es).emitted[k + 1])
  {
    RunIsSound(es);
    RunSwitches(es);
    var us, ps := Run(es).emitted, Run(es).superseded;
    forall p | p in ps
      ensures exists k :: 0 <= k < |us| - 1 && IsSwitch(us[k], us[k + 1], p)
    {
      var j :| 0 <= j < |ps| && ps[j] == p;
      assert Signals(ps)[j] == (p.0.(disconnected := true), p.1);
      var k := SwitchAt(us, j);
      assert IsSwitch(us[k], us[k + 1], p);
    }
  }

  /** The queued session is sent as disconnected, and then its successor as it is. */
  predicate IsSwitch(u: Update, next: Update, p: (Info, Info)) {
    u.synthesized && u.info == p.0.(disconnected := true) && next.info == p.1
  }

  // ---------------------------------------------------------------------------------------
  // Sending
  // ---------------------------------------------------------------------------------------

  predicate Skippable(u: Update) { u.synthesized || u.closeReason == DuplicateIdentity }

  /** What a recipient is to be told: everything, or what is left without session switches. */
  function Wanted(us: seq<Update>, identityBased: bool): seq<Info> {
    if us == [] then []
    else
      var u := us[|us| - 1];
      Wanted(us[..|us| - 1], identityBased) + if identityBased && Skippable(u) then [] else [u.info]
  }

  predicate LeftOut(u: Update, identityBased: bool) {
    identityBased && (u.synthesized || u.closeReason == DuplicateIdentity)
  }

  /** In order, the updates at these places: all, or all but synthesized disconnects and duplicate identities. */
  ghost predicate Picks(infos: seq<Info>, us: seq<Update>, identityBased: bool, at: seq<nat>) {
    && |at| == |infos| && (forall i, j :: 0 <= i < j < |at| ==> at[i] < at[j])
    && (forall i :: 0 <= i < |at| ==> at[i] < |us| && infos[i] == us[at[i]].info)
    && (forall k :: 0 <= k < |us| ==>
          (k in at <==> !LeftOut(us[k], identityBased)))
  }

  lemma PicksNext(infos: seq<Info>, us: seq<Update>, identityBased: bool, at: seq<nat>, u: Update)
    requires Picks(infos, us, identityBased, at)
    ensures LeftOut(u, identityBased) ==> Picks(infos, us + [u], identityBased, at)
    ensures !LeftOut(u, identityBased) ==> Picks(infos + [u.info], us + [u], identityBased, at + [|us|])
  {
    assert forall k :: k in at + [|us|] <==> k in at || k == |us|;
    assert forall k :: 0 <= k < |us| ==> (us + [u])[k] == us[k];
    assert forall k :: k in at ==> k < |us|;
  }

  lemma {:induction false} WantedPicks(us: seq<Update>, identityBased: bool) returns (at: seq<nat>)
    ensures Picks(Wanted(us, identityBased), us, identityBased, at)
  {
    at := [];
    if us != [] {
      var init, last := us[..|us| - 1], us[|us| - 1];
      at := WantedPicks(init, identityBased);
      PicksNext(Wanted(init, identityBased), init, identityBased, at, last);
      assert us == init + [last];
      assert Wanted(init, identityBased) + [] == Wanted(init, identityBased);
      if !LeftOut(last, identityBased) {
        at := at + [|init|];
      }
    }
  }

  method Filter(us: seq<Update>, identityBased: bool) returns (infos: seq<Info>)
    ensures infos == Wanted(us, identityBased)
    ensures exists at :: Picks(infos, us, identityBased, at)
  {
    ghost var at := WantedPicks(us, identityBased);
    infos := [];
    for k := 0 to |us|
      invariant infos == Wanted(us[..k], identityBased)
    {
      assert us[..k + 1][..k] == us[..k];
      if identityBased && Skippable(us[k]) {
        continue;
      }
      infos := infos + [us[k].info];
    }
    assert us[..|us|] == us;
  }

  lemma {:induction false} ConcatPrefix(chunks: seq<seq<Info>>, k: nat)
    requires k <= |chunks|
    ensures ProtoBatch.Concat(chunks[..k]) <= ProtoBatch.Concat(chunks)
  {
    if k == 0 {
      assert chunks[..0] == [];
    } else {
      ConcatPrefix(chunks[1..], k - 1);
      assert chunks[..k][1..] == chunks[1..][..k - 1];
    }
  }

  type Failing = (nat, nat) -> bool

  /** What the p-th recipient got: the wanted updates in order, all of them unless the last send failed. */
  ghost predicate Delivered(sent: seq<seq<Info>>, wanted: seq<Info>, p: nat, fails: Failing) {
    && ProtoBatch.Concat(sent) <= wanted
    && (forall k :: 0 <= k < |sent| - 1 ==> !fails(p, k))
    && (ProtoBatch.Concat(sent) == wanted || (sent != [] && fails(p, |sent| - 1)))
  }

  method SendTo(chunks: seq<seq<Info>>, p: nat, fails: Failing, ghost size: Info -> nat, ghost target: int)
      returns (sent: seq<seq<Info>>)
    requires ProtoBatch.Chunked(chunks, size, target)
    ensures Delivered(sent, ProtoBatch.Concat(chunks), p, fails) && ProtoBatch.Chunked(sent, size, target)
  {
    sent := [];
    assert chunks[..0] == [];
    for k := 0 to |chunks|
      invariant sent == chunks[..k] && forall j :: 0 <= j < k ==> !fails(p, j)
    {
      sent := sent + [chunks[k]];
      assert sent == chunks[..k + 1];
      if fails(p, k) {
        ConcatPrefix(chunks, k + 1);
        return;
      }
    }
    assert chunks[..|chunks|] == chunks;
  }

  /** The p-th recipient got what it wants, in chunks that fit the target. */
  ghost predicate Told(sent: seq<seq<Info>>, us: seq<Update>, identityBased: bool, size: Info -> nat, target: int,
      p: nat, fails: Failing) {
    Delivered(sent, Wanted(us, identityBased), p, fails) && ProtoBatch.Chunked(sent, size, target)
  }

  /**
   `recipients` tells who handles identity-based reconnects; `fails(p, k)` whether the k-th send to the p-th
   one fails.
   */
  method SendParticipantUpdates(us: seq<Update>, recipients: seq<bool>, size: Info -> nat, target: int, fails: Failing)
    returns (sent: seq<seq<seq<Info>>>)
    ensures |sent| == |recipients|
    ensures forall p :: 0 <= p < |sent| ==> Told(sent[p], us, recipients[p], size, target, p, fails)
  {
    var filtered := Filter(us, true);
    var full := Filter(us, false);
    var filteredChunks := ProtoBatch.ChunkProtoBatch(filtered, size, target);
    var fullChunks := ProtoBatch.ChunkProtoBatch(full, size, target);
    sent := [];
    for p := 0 to |recipients|
      invariant |sent| == p
      invariant forall q :: 0 <= q < p ==> Told(sent[q], us, recipients[q], size, target, q, fails)
    {
      var chunks := if recipients[p] then filteredChunks else fullChunks;
      var got := SendTo(chunks, p, fails, size, target);
      assert Told(got, us, recipients[p], size, target, p, fails);
      sent := sent + [got];
    }
  }
}
