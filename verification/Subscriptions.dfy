/**
 The asynchronous path of the subscription manager (pkg/rtc/subscriptionmanager.go): the desired and
 actual state of each subscription, the reconciler, the limits, the subscribed-to bookkeeping and the
 asynchronous close of subscribed tracks. One reconcile of one track is one step; adding a subscriber
 and recording it belongs to that step.
 */
module Subscriptions {
  import opened Prelude

  type TrackID = string
  type ParticipantID = string

  const RECONCILE_ALL: TrackID := "subscriptions_reconcile"
  const NOT_FOUND_TIMEOUT: nat := 60_000_000_000

  datatype Kind = Audio | Video | Data

  /**
   A subscribed track: its media kind, whether its removal has begun, and whether markSubscribedTo
   followed its creation (it does not when canSubscribe was revoked while it was being added).
   */
  datatype Live = Live(kind: Kind, closing: bool, announced: bool)

  /** mediaTrackSubscription; `keepUntil` is zero unless settings came before a subscribe. */
  datatype Sub = Sub(desired: bool, track: Option<Live>, bound: bool, keepUntil: nat, kind: Option<Kind>,
      publisher: ParticipantID)

  function NewSub(): Sub { Sub(false, None, false, 0, None, "") }

  predicate NeedsSubscribe(s: Sub) { s.desired && s.track.None? }
  predicate NeedsUnsubscribe(s: Sub) { !s.desired && s.track.Some? }
  predicate NeedsBind(s: Sub) { s.desired && s.track.Some? && !s.bound }
  predicate NeedsCleanup(s: Sub, now: nat) { !s.desired && s.track.None? && !(now < s.keepUntil) }

  function SetDesired(s: Sub, desired: bool): Sub {
    s.(desired := desired, keepUntil := if desired then 0 else s.keepUntil)
  }

  datatype Limits = Limits(video: int, audio: int)

  /**
   The manager. `removals` are the RemoveSubscriber goroutines in flight (pendingUnsubscribes is their
   number), `status` the calls of onSubscribeStatusChanged, `queued` the calls of queueReconcile.
   */
  datatype Manager = Manager(
    subs: map<TrackID, Sub>,
    videoCount: int,
    audioCount: int,
    subscribedTo: map<ParticipantID, set<TrackID>>,
    removals: multiset<TrackID>,
    status: seq<(ParticipantID, bool)>,
    queued: seq<TrackID>)

  function NewManager(): Manager { Manager(map[], 0, 0, map[], multiset{}, [], []) }

  // ---------------------------------------------------------------------------------------
  // Bookkeeping
  // ---------------------------------------------------------------------------------------

  predicate HasCapacity(m: Manager, k: Kind, l: Limits) {
    match k
    case Video => !(l.video > 0 && m.videoCount >= l.video)
    case Audio => !(l.audio > 0 && m.audioCount >= l.audio)
    case Data => true
  }

  function Count(m: Manager, k: Kind, delta: int): Manager {
    match k
    case Video => m.(videoCount := m.videoCount + delta)
    case Audio => m.(audioCount := m.audioCount + delta)
    case Data => m
  }

  function Mark(m: Manager, p: ParticipantID, t: TrackID): Manager {
    if p in m.subscribedTo then m.(subscribedTo := m.subscribedTo[p := m.subscribedTo[p] + {t}])
    else m.(subscribedTo := m.subscribedTo[p := {t}], status := m.status + [(p, true)])
  }

  function Unmark(m: Manager, p: ParticipantID, t: TrackID): Manager {
    if p !in m.subscribedTo then m
    else if m.subscribedTo[p] - {t} == {}
        then m.(subscribedTo := m.subscribedTo - {p}, status := m.status + [(p, false)])
    else m.(subscribedTo := m.subscribedTo[p := m.subscribedTo[p] - {t}])
  }

  function Enqueue(m: Manager, t: TrackID): Manager { m.(queued := m.queued + [t]) }

  function With(m: Manager, t: TrackID, s: Sub): Manager { m.(subs := m.subs[t := s]) }

  // ---------------------------------------------------------------------------------------
  // subscribe, unsubscribe, close
  // ---------------------------------------------------------------------------------------

  /** So many tracks of the kinds are live that one more of this kind is within a positive limit. */
  predicate Room(video: int, audio: int, k: Kind, l: Limits) {
    (k.Video? && l.video > 0 ==> video < l.video) && (k.Audio? && l.audio > 0 ==> audio < l.audio)
  }

  /** What MediaTrack.AddSubscriber answers. */
  datatype AddOutcome = Added | AlreadySubscribed | AddFailed

  /** What a subscribe meets: permissions, the resolver's result, and the outcome of adding the subscriber. */
  datatype Env = Env(canSubscribe: bool, found: bool, kind: Kind, publisher: ParticipantID, hasPermission: bool,
                     add: AddOutcome, canSubscribeAfter: bool)

  datatype Err = NoSubscribePermission | LimitExceeded | TrackNotFound | NoTrackPermission | AddError

  /**
   How far a subscribe got: refused, removed again because a revoke landed meanwhile, recorded, or
   answered that the participant is subscribed already.
   */
  datatype Outcome = Refused(err: Err) | Revoked | Recorded | Already

  /** The entry after a subscribe, before the manager's own books are brought up to date. */
  function Attempt(m: Manager, s: Sub, env: Env, l: Limits): (Sub, Outcome) {
    if !env.canSubscribe then (s, Refused(NoSubscribePermission))
    else if s.kind.Some? && !HasCapacity(m, s.kind.value, l) then (s, Refused(LimitExceeded))
    else if !env.found then (s, Refused(TrackNotFound))
    else
      var s1 := if s.kind.None? then s.(kind := Some(env.kind)) else s;
      if !HasCapacity(m, env.kind, l) then (s1, Refused(LimitExceeded))
      else
        var s2 := s1.(publisher := env.publisher);
        if !env.hasPermission then (s2, Refused(NoTrackPermission))
        else match env.add
          case AddFailed => (s2, Refused(AddError))
          case AlreadySubscribed => (s2, Already)
          case Added =>
            (s2.(track := Some(Live(env.kind, !env.canSubscribeAfter, env.canSubscribeAfter)), bound := false),
             if env.canSubscribeAfter then Recorded else Revoked)
  }

  /**
   What a subscribe needs to get as far as AddSubscriber: permission to subscribe and to the track, the track
   itself, and room for its kind, also for the kind noted by an earlier attempt.
   */
  predicate Admits(s: Sub, video: int, audio: int, env: Env, l: Limits) {
    && env.canSubscribe && env.found && env.hasPermission && Room(video, audio, env.kind, l)
    && (s.kind.Some? ==> Room(video, audio, s.kind.value, l))
  }

  /** subscribe with addSubscriber: a recorded track is counted, and announced unless it was revoked. */
  function Subscribe(m: Manager, t: TrackID, env: Env, l: Limits): (Manager, Option<Err>)
    requires t in m.subs
  {
    var (s, o) := Attempt(m, m.subs[t], env, l);
    var m1 := With(m, t, s);
    match o
    case Refused(err) => (m1, Some(err))
    case Revoked => (Count(m1, env.kind, 1), Some(NoSubscribePermission))
    case Recorded => (Mark(Count(m1, env.kind, 1), env.publisher, t), None)
    case Already => (Mark(m1, env.publisher, t), None)
  }

  function Unsubscribe(m: Manager, t: TrackID): Manager
    requires t in m.subs
  {
    if m.subs[t].track.None? then m else m.(removals := m.removals + multiset{t})
  }

  /** The counter has just dropped below its limit. */
  predicate Relieved(m: Manager, k: Kind, l: Limits) {
    match k
    case Video => l.video > 0 && m.videoCount == l.video - 1
    case Audio => l.audio > 0 && m.audioCount == l.audio - 1
    case Data => false
  }

  /** handleSubscribedTrackClose. */
  function HandleClose(m: Manager, t: TrackID, l: Limits): Manager {
    if t !in m.subs || m.subs[t].track.None? then m
    else
      var k := m.subs[t].track.value.kind;
      var m1 := Count(With(m, t, m.subs[t].(track := None, bound := false)), k, -1);
      Enqueue(Unmark(m1, m1.subs[t].publisher, t), if Relieved(m1, k, l) then RECONCILE_ALL else t)
  }

  // ---------------------------------------------------------------------------------------
  // The reconciler
  // ---------------------------------------------------------------------------------------

  /**
   The rest of what a reconcile meets: canReconcile, the clock, whether the entry has waited long enough
   for pending unsubscribes, and whether it has been without its track for notFoundTimeout.
   */
  datatype Moment = Moment(canReconcile: bool, now: nat, waited: bool, notFoundForLong: bool)

  function Reconcile(m: Manager, t: TrackID, env: Env, at: Moment, l: Limits): Manager {
    if t !in m.subs || !at.canReconcile then m
    else if NeedsSubscribe(m.subs[t]) then
      if m.removals != multiset{} && !at.waited then Enqueue(m, t)
      else
        var (m1, err) := Subscribe(m, t, env, l);
        if err == Some(TrackNotFound) && at.notFoundForLong then Enqueue(With(m1, t, SetDesired(m1.subs[t], false)), t)
        else m1
    else if NeedsUnsubscribe(m.subs[t]) then Unsubscribe(m, t)
    else if NeedsCleanup(m.subs[t], at.now) then m.(subs := m.subs - {t})
    else m
  }

  predicate NeedsReconcile(s: Sub, now: nat) {
    NeedsSubscribe(s) || NeedsUnsubscribe(s) || NeedsBind(s) || NeedsCleanup(s, now)
  }

  /** Passing over an entry that needs no reconcile changes nothing: a reconcile of it would not, either. */
  lemma NoNeedNoChange(m: Manager, t: TrackID, env: Env, at: Moment, l: Limits)
    requires t in m.subs && !NeedsReconcile(m.subs[t], at.now)
    ensures Reconcile(m, t, env, at, l) == m
  {
  }

  function ReconcileEach(m: Manager, order: seq<TrackID>, env: TrackID -> Env, at: Moment, l: Limits): Manager {
    if order == [] then m
    else
      var t := order[|order| - 1];
      Reconcile(ReconcileEach(m, order[..|order| - 1], env, at, l), t, env(t), at, l)
  }

  // ---------------------------------------------------------------------------------------
  // Requests
  // ---------------------------------------------------------------------------------------

  function Find(m: Manager, t: TrackID): Sub { if t in m.subs then m.subs[t] else NewSub() }

  function SubscribeTo(m: Manager, t: TrackID): Manager {
    Enqueue(With(m, t, SetDesired(Find(m, t), true)), t)
  }

  function UnsubscribeFrom(m: Manager, t: TrackID): Manager {
    if t !in m.subs || !m.subs[t].desired then m
    else Enqueue(With(m, t, SetDesired(m.subs[t], false)), t)
  }

  function UpdateSettings(m: Manager, t: TrackID, now: nat): Manager {
    var s := Find(m, t);
    With(m, t, if s.desired then s else s.(keepUntil := now + NOT_FOUND_TIMEOUT))
  }

  /** The source is gone: no longer desired, and nothing is queued for it. */
  function SourceRemoved(m: Manager, t: TrackID): Manager {
    if t in m.subs then With(m, t, m.subs[t].(desired := false)) else m
  }

  function ClearAll(m: Manager): Manager {
    Enqueue(m.(subs := map t | t in m.subs :: SetDesired(m.subs[t], false)), RECONCILE_ALL)
  }

  function SetBound(m: Manager, t: TrackID): Manager {
    if t in m.subs && m.subs[t].track.Some? then With(m, t, m.subs[t].(bound := true)) else m
  }

  /** A RemoveSubscriber goroutine runs: it begins closing whatever track the subscriber has now. */
  function RemovalRuns(m: Manager, t: TrackID): Manager {
    if t !in m.removals then m
    else
      var m1 := m.(removals := m.removals - multiset{t});
      if t in m.subs && m.subs[t].track.Some? then
        With(m1, t, m.subs[t].(track := Some(m.subs[t].track.value.(closing := true))))
      else m1
  }

  /** The manager as the source has it: maps, counters and flags changed in place. */
  class SubscriptionManager {
    const limits: Limits
    var subs: map<TrackID, Sub>
    var videoCount: int
    var audioCount: int
    var subscribedTo: map<ParticipantID, set<TrackID>>
    var removals: multiset<TrackID>
    var status: seq<(ParticipantID, bool)>
    var queued: seq<TrackID>

    function State(): Manager
      reads this
    {
      Manager(subs, videoCount, audioCount, subscribedTo, removals, status, queued)
    }

    constructor (limits: Limits)
      ensures State() == NewManager() && this.limits == limits
    {
      this.limits := limits;
      subs, subscribedTo, removals, status, queued := map[], map[], multiset{}, [], [];
      videoCount, audioCount := 0, 0;
    }

    method MarkSubscribedTo(p: ParticipantID, t: TrackID)
      modifies this
      ensures State() == Mark(old(State()), p, t)
      ensures subscribedTo.Keys == old(subscribedTo).Keys + {p}
      ensures subscribedTo[p] == (if p in old(subscribedTo) then old(subscribedTo)[p] else {}) + {t}
      ensures forall q :: q in old(subscribedTo) && q != p ==> subscribedTo[q] == old(subscribedTo)[q]
      ensures status == old(status) + if p in old(subscribedTo) then [] else [(p, true)]
    {
      var first := p !in subscribedTo;
      if first {
        subscribedTo := subscribedTo[p := {}];
      }
      subscribedTo := subscribedTo[p := subscribedTo[p] + {t}];
      assert first ==> subscribedTo[p] == {t};
      if first {
        status := status + [(p, true)];
      }
    }

    method UnmarkSubscribedTo(p: ParticipantID, t: TrackID)
      modifies this
      ensures State() == Unmark(old(State()), p, t)
      ensures forall q :: q in subscribedTo <==>
                  q in old(subscribedTo) && (q == p ==> old(subscribedTo)[p] - {t} != {})
      ensures forall q :: q in subscribedTo ==>
                  subscribedTo[q] == if q == p then old(subscribedTo)[q] - {t} else old(subscribedTo)[q]
      ensures status == old(status) + if p in old(subscribedTo) && p !in subscribedTo then [(p, false)] else []
    {
      if p in subscribedTo {
        var tracks := subscribedTo[p] - {t};
        if tracks == {} {
          subscribedTo := subscribedTo - {p};
          status := status + [(p, false)];
        } else {
          subscribedTo := subscribedTo[p := tracks];
        }
      }
    }

    method QueueReconcile(t: TrackID)
      modifies `queued
      ensures State() == Enqueue(old(State()), t)
    {
      queued := queued + [t];
    }

    method CountUp(k: Kind)
      modifies `videoCount, `audioCount
      ensures State() == Count(old(State()), k, 1)
    {
      match k {
        case Video => videoCount := videoCount + 1;
        case Audio => audioCount := audioCount + 1;
        case Data =>
      }
    }

    /** addSubscriber; the track's removal has begun already if canSubscribe went away meanwhile. */
    method AddSubscriber(s: Sub, env: Env) returns (s': Sub, err: Option<Err>)
      modifies `videoCount, `audioCount
      ensures State() == if env.add == Added then Count(old(State()), env.kind, 1) else old(State())
      ensures s' == if env.add == Added
          then s.(track := Some(Live(env.kind, !env.canSubscribeAfter, env.canSubscribeAfter)), bound := false) else s
      ensures err == if env.add == AddFailed then Some(AddError)
                     else if env.add == Added && !env.canSubscribeAfter then Some(NoSubscribePermission) else None
    {
      s', err := s, None;
      if env.add == AddFailed {
        return s, Some(AddError);
      }
      if env.add == Added {
        var live := Live(env.kind, false, true);
        CountUp(env.kind);
        if !env.canSubscribeAfter {
          live := live.(closing := true, announced := false);
          err := Some(NoSubscribePermission);
        }
        s' := s.(track := Some(live), bound := false);
      }
    }

    method SubscribeTrack(t: TrackID, env: Env) returns (err: Option<Err>)
      requires t in subs
      modifies this
      ensures (State(), err) == Subscribe(old(State()), t, env, limits)
    {
      var s := subs[t];
      assert subs == subs[t := s];
      if !env.canSubscribe {
        return Some(NoSubscribePermission);
      }
      if s.kind.Some? && !HasCapacity(State(), s.kind.value, limits) {
        return Some(LimitExceeded);
      }
      if !env.found {
        return Some(TrackNotFound);
      }
      if s.kind.None? {
        s := s.(kind := Some(env.kind));
      }
      if !HasCapacity(State(), env.kind, limits) {
        err := Some(LimitExceeded);
      } else {
        s := s.(publisher := env.publisher);
        if !env.hasPermission {
          err := Some(NoTrackPermission);
        } else {
          s, err := AddSubscriber(s, env);
        }
      }
      subs := subs[t := s];
      if err.None? {
        MarkSubscribedTo(env.publisher, t);
      }
    }

    method UnsubscribeTrack(t: TrackID)
      requires t in subs
      modifies this
      ensures State() == Unsubscribe(old(State()), t)
      ensures removals == old(removals) + if subs[t].track.Some? then multiset{t} else multiset{}
    {
      if subs[t].track.None? {
        return;
      }
      removals := removals + multiset{t};
    }

    method CountDown(k: Kind) returns (relieved: bool)
      modifies `videoCount, `audioCount
      ensures State() == Count(old(State()), k, -1)
      ensures relieved == Relieved(State(), k, limits)
    {
      relieved := false;
      match k {
        case Video =>
          videoCount := videoCount - 1;
          relieved := limits.video > 0 && videoCount == limits.video - 1;
        case Audio =>
          audioCount := audioCount - 1;
          relieved := limits.audio > 0 && audioCount == limits.audio - 1;
        case Data =>
      }
    }

    method HandleSubscribedTrackClose(t: TrackID)
      modifies this
      ensures State() == HandleClose(old(State()), t, limits)
      ensures (t !in old(subs) || old(subs)[t].track.None?) ==> State() == old(State())
      ensures t in old(subs) && old(subs)[t].track.Some? ==>
                var k := old(subs)[t].track.value.kind;
                && subs == old(subs)[t := old(subs)[t].(track := None, bound := false)]
                && videoCount == old(videoCount) - One(k == Video) && audioCount == old(audioCount) - One(k == Audio)
                && queued == old(queued) +
                    [if (k == Video && limits.video > 0 && old(videoCount) == limits.video)
                        || (k == Audio && limits.audio > 0 && old(audioCount) == limits.audio)
                     then RECONCILE_ALL else t]
    {
      if t !in subs || subs[t].track.None? {
        return;
      }
      var kind := subs[t].track.value.kind;
      subs := subs[t := subs[t].(track := None, bound := false)];
      var relieved := CountDown(kind);
      UnmarkSubscribedTo(subs[t].publisher, t);
      QueueReconcile(if relieved then RECONCILE_ALL else t);
    }

    method ReconcileSubscription(t: TrackID, env: Env, at: Moment)
      modifies this
      ensures State() == Reconcile(old(State()), t, env, at, limits)
      ensures t !in old(subs) || !at.canReconcile ==> State() == old(State())
      ensures t in old(subs) && at.canReconcile ==>
                var s, m := old(subs)[t], old(State());
                && (s.desired && s.track.Some? ==> State() == m)
                && (s.desired && s.track.None? && old(removals) != multiset{} && !at.waited ==>
                      State() == m.(queued := m.queued + [t]))
                && (!s.desired && s.track.Some? ==> State() == m.(removals := m.removals + multiset{t}))
                && (!s.desired && s.track.None? ==>
                      State() == if s.keepUntil <= at.now then m.(subs := m.subs - {t}) else m)
    {
      if t !in subs || !at.canReconcile {
        return;
      }
      if NeedsSubscribe(subs[t]) {
        if removals != multiset{} && !at.waited {
          QueueReconcile(t);
          return;
        }
        var err := SubscribeTrack(t, env);
        if err == Some(TrackNotFound) && at.notFoundForLong {
          subs := subs[t := SetDesired(subs[t], false)];
          QueueReconcile(t);
        }
        return;
      }
      if NeedsUnsubscribe(subs[t]) {
        UnsubscribeTrack(t);
        return;
      }
      if NeedsCleanup(subs[t], at.now) {
        subs := subs - {t};
      }
    }

    /** `order` is the order in which the map yields the entries that need it. */
    method ReconcileSubscriptions(order: seq<TrackID>, env: TrackID -> Env, at: Moment)
      requires forall t :: t in order <==> t in subs && NeedsReconcile(subs[t], at.now)
      modifies this
      ensures State() == ReconcileEach(old(State()), order, env, at, limits)
    {
      for k := 0 to |order|
        invariant State() == ReconcileEach(old(State()), order[..k], env, at, limits)
      {
        assert order[..k + 1][..k] == order[..k];
        ReconcileSubscription(order[k], env(order[k]), at);
      }
      assert order[..|order|] == order;
    }

    method SubscribeToTrack(t: TrackID)
      modifies this
      ensures State() == SubscribeTo(old(State()), t)
      ensures t in subs && subs[t].desired && subs[t].keepUntil == 0 && queued == old(queued) + [t]
      ensures t in old(subs) ==> subs == old(subs)[t := old(subs)[t].(desired := true, keepUntil := 0)]
      ensures t !in old(subs) ==> subs == old(subs)[t := Sub(true, None, false, 0, None, "")]
    {
      if t !in subs {
        subs := subs[t := NewSub()];
      }
      subs := subs[t := SetDesired(subs[t], true)];
      QueueReconcile(t);
    }

    method UnsubscribeFromTrack(t: TrackID)
      modifies this
      ensures State() == UnsubscribeFrom(old(State()), t)
      ensures t in old(subs) && old(subs)[t].desired ==>
                subs == old(subs)[t := old(subs)[t].(desired := false)] && queued == old(queued) + [t]
      ensures !(t in old(subs) && old(subs)[t].desired) ==> State() == old(State())
    {
      if t !in subs || !subs[t].desired {
        return;
      }
      subs := subs[t := SetDesired(subs[t], false)];
      QueueReconcile(t);
    }

    method UpdateSubscribedTrackSettings(t: TrackID, now: nat)
      modifies this
      ensures State() == UpdateSettings(old(State()), t, now)
      ensures t in old(subs) && old(subs)[t].desired ==> State() == old(State())
      ensures t in old(subs) && !old(subs)[t].desired ==>
                subs == old(subs)[t := old(subs)[t].(keepUntil := now + 60_000_000_000)]
      ensures t !in old(subs) ==> subs == old(subs)[t := Sub(false, None, false, now + 60_000_000_000, None, "")]
    {
      if t !in subs {
        subs := subs[t := NewSub()];
      }
      if !subs[t].desired {
        subs := subs[t := subs[t].(keepUntil := now + NOT_FOUND_TIMEOUT)];
      }
      assert subs == UpdateSettings(old(State()), t, now).subs;
    }

    method ClearAllSubscriptions()
      modifies this
      ensures State() == ClearAll(old(State()))
      ensures subs.Keys == old(subs).Keys && queued == old(queued) + [RECONCILE_ALL]
      ensures forall t :: t in subs ==> subs[t] == old(subs)[t].(desired := false)
    {
      var left := subs.Keys;
      while left != {}
        invariant left <= subs.Keys == old(subs).Keys
        invariant forall t :: t in left ==> subs[t] == old(subs)[t]
        invariant forall t :: t in subs && t !in left ==> subs[t] == SetDesired(old(subs)[t], false)
        invariant State() == old(State()).(subs := subs)
        decreases left
      {
        var t :| t in left;
        subs := subs[t := SetDesired(subs[t], false)];
        left := left - {t};
      }
      assert subs == ClearAll(old(State())).subs;
      QueueReconcile(RECONCILE_ALL);
    }
  }

  // ---------------------------------------------------------------------------------------
  // Runs
  // ---------------------------------------------------------------------------------------

  datatype Event =
    | SubscribeRequest(t: TrackID)
    | UnsubscribeRequest(t: TrackID)
    | SettingsRequest(t: TrackID, now: nat)
    | SourceGone(t: TrackID)
    | ClearRequest
    | Bound(t: TrackID)
    | ReconcileOne(t: TrackID, env: Env, at: Moment)
    | Removal(t: TrackID)
    | TrackCloses(t: TrackID)

  function Step(m: Manager, e: Event, l: Limits): Manager {
    match e
    case SubscribeRequest(t) => SubscribeTo(m, t)
    case UnsubscribeRequest(t) => UnsubscribeFrom(m, t)
    case SettingsRequest(t, now) => UpdateSettings(m, t, now)
    case SourceGone(t) => SourceRemoved(m, t)
    case ClearRequest => ClearAll(m)
    case Bound(t) => SetBound(m, t)
    case ReconcileOne(t, env, at) => Reconcile(m, t, env, at, l)
    case Removal(t) => RemovalRuns(m, t)
    case TrackCloses(t) => HandleClose(m, t, l)
  }

  function Run(es: seq<Event>, l: Limits): Manager {
    if es == [] then NewManager() else Step(Run(es[..|es| - 1], l), es[|es| - 1], l)
  }

  // ---------------------------------------------------------------------------------------
  // Accounting
  // ---------------------------------------------------------------------------------------

  predicate LiveOf(s: Sub, k: Kind) { s.track.Some? && s.track.value.kind == k }

  function LiveTracks(subs: map<TrackID, Sub>, k: Kind): set<TrackID> { set t | t in subs && LiveOf(subs[t], k) }

  /** The counters are the numbers of live tracks of their kind. */
  ghost predicate CountsAreLive(m: Manager) {
    m.videoCount == |LiveTracks(m.subs, Video)| && m.audioCount == |LiveTracks(m.subs, Audio)|
  }

  predicate WithinLimits(m: Manager, l: Limits) {
    && (l.video > 0 ==> m.videoCount <= l.video)
    && (l.audio > 0 ==> m.audioCount <= l.audio)
  }

  function One(b: bool): nat { if b then 1 else 0 }

  function Others(subs: map<TrackID, Sub>, t: TrackID, k: Kind): set<TrackID> {
    set u | u in subs && u != t && LiveOf(subs[u], k)
  }

  lemma OneApart(subs: map<TrackID, Sub>, t: TrackID, k: Kind)
    ensures |LiveTracks(subs, k)| == |Others(subs, t, k)| + One(t in subs && LiveOf(subs[t], k))
  {
    if t in subs && LiveOf(subs[t], k) {
      assert LiveTracks(subs, k) == Others(subs, t, k) + {t};
    } else {
      assert LiveTracks(subs, k) == Others(subs, t, k);
    }
  }

  /** Replacing one entry changes the number of live tracks by what that entry was and is. */
  lemma OneEntryReplaced(subs: map<TrackID, Sub>, t: TrackID, s: Sub, k: Kind)
    ensures |LiveTracks(subs[t := s], k)|
            == |LiveTracks(subs, k)| - One(t in subs && LiveOf(subs[t], k)) + One(LiveOf(s, k))
  {
    OneApart(subs, t, k);
    OneApart(subs[t := s], t, k);
    assert Others(subs[t := s], t, k) == Others(subs, t, k);
  }

  ghost predicate Counted(subs: map<TrackID, Sub>, video: int, audio: int) {
    video == |LiveTracks(subs, Video)| && audio == |LiveTracks(subs, Audio)|
  }

  lemma EntryCounted(subs: map<TrackID, Sub>, video: int, audio: int, t: TrackID, s: Sub)
    requires Counted(subs, video, audio)
    ensures Counted(subs[t := s],
                    video - One(t in subs && LiveOf(subs[t], Video)) + One(LiveOf(s, Video)),
                    audio - One(t in subs && LiveOf(subs[t], Audio)) + One(LiveOf(s, Audio)))
  {
    OneEntryReplaced(subs, t, s, Video);
    OneEntryReplaced(subs, t, s, Audio);
  }

  lemma CloseKeepsCounts(m: Manager, t: TrackID, l: Limits)
    requires CountsAreLive(m) && WithinLimits(m, l)
    ensures CountsAreLive(HandleClose(m, t, l)) && WithinLimits(HandleClose(m, t, l), l)
  {
    if t in m.subs && m.subs[t].track.Some? {
      EntryCounted(m.subs, m.videoCount, m.audioCount, t, m.subs[t].(track := None, bound := false));
    }
  }

  lemma SubscribeKeepsCounts(m: Manager, t: TrackID, env: Env, l: Limits)
    requires CountsAreLive(m) && WithinLimits(m, l) && t in m.subs && NeedsSubscribe(m.subs[t])
    ensures CountsAreLive(Subscribe(m, t, env, l).0) && WithinLimits(Subscribe(m, t, env, l).0, l)
  {
    EntryCounted(m.subs, m.videoCount, m.audioCount, t, Attempt(m, m.subs[t], env, l).0);
  }

  /** Liveness, publisher and announcement of every track stay as they are. */
  ghost predicate SameTracks(subs: map<TrackID, Sub>, subs': map<TrackID, Sub>) {
    && (forall t :: t in subs && t in subs' ==>
          && (subs[t].track.Some? <==> subs'[t].track.Some?)
          && (subs[t].track.Some? ==>
                && subs'[t].track.value == subs[t].track.value.(closing := subs'[t].track.value.closing)
                && subs'[t].publisher == subs[t].publisher))
    && (forall t :: t in subs && t !in subs' ==> subs[t].track.None?)
    && (forall t :: t in subs' && t !in subs ==> subs'[t].track.None?)
  }

  lemma EntryKeepsTracks(subs: map<TrackID, Sub>, t: TrackID, s: Sub)
    requires if t in subs then SameTracks(map[t := subs[t]], map[t := s]) else s.track.None?
    ensures SameTracks(subs, subs[t := s])
  {
    assert t in subs ==> t in map[t := subs[t]] && t in map[t := s];
  }

  lemma ReconcileKeepsTracks(m: Manager, t: TrackID, env: Env, at: Moment, l: Limits)
    requires !(t in m.subs && NeedsSubscribe(m.subs[t]))
    ensures var m' := Reconcile(m, t, env, at, l);
            SameTracks(m.subs, m'.subs) && m' == m.(subs := m'.subs, removals := m'.removals)
  {
  }

  /** Apart from a subscribe that got a track and a close, no step adds, removes or re-assigns a live track. */
  lemma OtherStepsKeepTracks(m: Manager, e: Event, l: Limits)
    requires !e.TrackCloses?
    requires !(e.ReconcileOne? && e.t in m.subs && NeedsSubscribe(m.subs[e.t]))
    ensures var m' := Step(m, e, l);
            && SameTracks(m.subs, m'.subs)
            && m' == m.(subs := m'.subs, removals := m'.removals, queued := m'.queued)
  {
    match e
    case ReconcileOne(t, env, at) => ReconcileKeepsTracks(m, t, env, at, l);
    case ClearRequest =>
    case SubscribeRequest(t) => EntryKeepsTracks(m.subs, t, SetDesired(Find(m, t), true));
    case SettingsRequest(t, now) => EntryKeepsTracks(m.subs, t, UpdateSettings(m, t, now).subs[t]);
    case UnsubscribeRequest(t) =>
      if t in m.subs {
        EntryKeepsTracks(m.subs, t, SetDesired(m.subs[t], false));
      }
    case SourceGone(t) =>
      if t in m.subs {
        EntryKeepsTracks(m.subs, t, m.subs[t].(desired := false));
      }
    case Bound(t) =>
      if t in m.subs {
        EntryKeepsTracks(m.subs, t, m.subs[t].(bound := true));
      }
    case Removal(t) =>
      if t in m.subs && m.subs[t].track.Some? {
        EntryKeepsTracks(m.subs, t, m.subs[t].(track := Some(m.subs[t].track.value.(closing := true))));
      }
  }

  lemma SameTracksCounted(subs: map<TrackID, Sub>, subs': map<TrackID, Sub>)
    requires SameTracks(subs, subs')
    ensures forall k :: LiveTracks(subs', k) == LiveTracks(subs, k)
  {
  }

  /** A reconcile that needs to subscribe ends like its subscribe, but for the desired flag. */
  lemma ReconcileSubscribes(m: Manager, t: TrackID, env: Env, at: Moment, l: Limits)
    requires t in m.subs && NeedsSubscribe(m.subs[t])
    ensures var m', m1 := Reconcile(m, t, env, at, l), Subscribe(m, t, env, l).0;
            var from := if !at.canReconcile || (m.removals != multiset{} && !at.waited) then m else m1;
            && SameTracks(from.subs, m'.subs)
            && m'.videoCount == from.videoCount && m'.audioCount == from.audioCount
            && m'.subscribedTo == from.subscribedTo && m'.status == from.status
  {
  }

  lemma StepKeepsCounts(m: Manager, e: Event, l: Limits)
    requires CountsAreLive(m) && WithinLimits(m, l)
    ensures CountsAreLive(Step(m, e, l)) && WithinLimits(Step(m, e, l), l)
  {
    var m' := Step(m, e, l);
    if e.TrackCloses? {
      CloseKeepsCounts(m, e.t, l);
    } else if e.ReconcileOne? && e.t in m.subs && NeedsSubscribe(m.subs[e.t]) {
      SubscribeKeepsCounts(m, e.t, e.env, l);
      ReconcileSubscribes(m, e.t, e.env, e.at, l);
      var putOff := !e.at.canReconcile || (m.removals != multiset{} && !e.at.waited);
      var from := if putOff then m else Subscribe(m, e.t, e.env, l).0;
      SameTracksCounted(from.subs, m'.subs);
    } else {
      OtherStepsKeepTracks(m, e, l);
      SameTracksCounted(m.subs, m'.subs);
    }
  }

  /** Over every run the counters are the numbers of live tracks of their kind, and never pass a positive limit. */
  lemma {:induction false} CountersAreExactAndLimited(es: seq<Event>, l: Limits)
    ensures CountsAreLive(Run(es, l)) && WithinLimits(Run(es, l), l)
  {
    if es != [] {
      CountersAreExactAndLimited(es[..|es| - 1], l);
      StepKeepsCounts(Run(es[..|es| - 1], l), es[|es| - 1], l);
    }
  }

  // ---------------------------------------------------------------------------------------
  // Who is subscribed to
  // ---------------------------------------------------------------------------------------

  predicate Announced(subs: map<TrackID, Sub>, t: TrackID, p: ParticipantID) {
    t in subs && subs[t].track.Some? && subs[t].track.value.announced && subs[t].publisher == p
  }

  predicate Listed(to: map<ParticipantID, set<TrackID>>, p: ParticipantID, t: TrackID) { p in to && t in to[p] }

  /** Every announced track is listed under its publisher, and no publisher is listed with nothing. */
  ghost predicate ListCovers(subs: map<TrackID, Sub>, to: map<ParticipantID, set<TrackID>>) {
    && (forall p, t :: Announced(subs, t, p) ==> Listed(to, p, t))
    && (forall p :: p in to ==> to[p] != {})
  }

  /** Only announced tracks are listed. */
  ghost predicate ListExact(subs: map<TrackID, Sub>, to: map<ParticipantID, set<TrackID>>) {
    forall p, t :: Listed(to, p, t) ==> Announced(subs, t, p)
  }

  lemma MarkLists(m: Manager, p: ParticipantID, t: TrackID)
    requires forall q :: q in m.subscribedTo ==> m.subscribedTo[q] != {}
    ensures var to := Mark(m, p, t).subscribedTo;
            && (forall q, u :: Listed(to, q, u) <==> Listed(m.subscribedTo, q, u) || (q == p && u == t))
            && (forall q :: q in to ==> to[q] != {})
  {
    assert t in Mark(m, p, t).subscribedTo[p];
  }

  lemma UnmarkLists(m: Manager, p: ParticipantID, t: TrackID)
    requires forall q :: q in m.subscribedTo ==> m.subscribedTo[q] != {}
    ensures var to := Unmark(m, p, t).subscribedTo;
            && (forall q, u :: Listed(to, q, u) <==> Listed(m.subscribedTo, q, u) && !(q == p && u == t))
            && (forall q :: q in to ==> to[q] != {})
  {
    if p in m.subscribedTo && m.subscribedTo[p] - {t} == {} {
      assert forall u :: u in m.subscribedTo[p] ==> u in m.subscribedTo[p] - {t} || u == t;
    }
  }

  /** The entry before its publisher is listed: only its own announcement can be new. */
  lemma AttemptAnnounces(m: Manager, t: TrackID, env: Env, l: Limits)
    requires t in m.subs && m.subs[t].track.None?
    ensures var (s, o) := Attempt(m, m.subs[t], env, l);
            forall u, p ::
                Announced(m.subs[t := s], u, p) <==>
                Announced(m.subs, u, p) || (o == Recorded && u == t && p == env.publisher)
  {
    var (s, o) := Attempt(m, m.subs[t], env, l);
    assert s.track.Some? && s.track.value.announced <==> o == Recorded;
    assert o == Recorded ==> s.publisher == env.publisher;
    forall u, p
      ensures Announced(m.subs[t := s], u, p) <==>
          Announced(m.subs, u, p) || (o == Recorded && u == t && p == env.publisher)
    {
      if u == t {
        assert m.subs[t := s][u] == s;
      }
    }
  }

  lemma SubscribeLists(m: Manager, t: TrackID, env: Env, l: Limits)
    requires t in m.subs && m.subs[t].track.None? && ListCovers(m.subs, m.subscribedTo)
    ensures var m' := Subscribe(m, t, env, l).0; ListCovers(m'.subs, m'.subscribedTo)
  {
    AttemptAnnounces(m, t, env, l);
    var (s, o) := Attempt(m, m.subs[t], env, l);
    if o == Recorded {
      MarkLists(Count(With(m, t, s), env.kind, 1), env.publisher, t);
    } else if o == Already {
      MarkLists(With(m, t, s), env.publisher, t);
    }
  }

  lemma CloseUnannounces(subs: map<TrackID, Sub>, t: TrackID)
    requires t in subs
    ensures forall u, p ::
        Announced(subs[t := subs[t].(track := None, bound := false)], u, p) <==> Announced(subs, u, p) && u != t
  {
  }

  /** Taking one track off the announcements and off its publisher's list keeps the two in step. */
  lemma ListsWithout(subs: map<TrackID, Sub>, to: map<ParticipantID, set<TrackID>>,
                     subs': map<TrackID, Sub>, to': map<ParticipantID, set<TrackID>>, t: TrackID)
    requires t in subs && ListCovers(subs, to)
    requires forall u, p :: Announced(subs', u, p) <==> Announced(subs, u, p) && u != t
    requires forall q, u :: Listed(to', q, u) <==> Listed(to, q, u) && !(q == subs[t].publisher && u == t)
    requires forall q :: q in to' ==> to'[q] != {}
    ensures ListCovers(subs', to') && (ListExact(subs, to) ==> ListExact(subs', to'))
  {
  }

  lemma CloseLists(m: Manager, t: TrackID, l: Limits)
    requires ListCovers(m.subs, m.subscribedTo)
    ensures var m' := HandleClose(m, t, l);
            && ListCovers(m'.subs, m'.subscribedTo)
            && (ListExact(m.subs, m.subscribedTo) ==> ListExact(m'.subs, m'.subscribedTo))
  {
    if t in m.subs && m.subs[t].track.Some? {
      var m1 := Count(With(m, t, m.subs[t].(track := None, bound := false)), m.subs[t].track.value.kind, -1);
      var m2 := Unmark(m1, m.subs[t].publisher, t);
      CloseUnannounces(m.subs, t);
      UnmarkLists(m1, m.subs[t].publisher, t);
      ListsWithout(m.subs, m.subscribedTo, m1.subs, m2.subscribedTo, t);
    }
  }

  lemma SameTracksAnnounced(subs: map<TrackID, Sub>, subs': map<TrackID, Sub>)
    requires SameTracks(subs, subs')
    ensures forall t, p :: Announced(subs', t, p) <==> Announced(subs, t, p)
  {
  }

  lemma StepCovers(m: Manager, e: Event, l: Limits)
    requires ListCovers(m.subs, m.subscribedTo)
    ensures var m' := Step(m, e, l); ListCovers(m'.subs, m'.subscribedTo)
  {
    var m' := Step(m, e, l);
    if e.TrackCloses? {
      CloseLists(m, e.t, l);
    } else if e.ReconcileOne? && e.t in m.subs && NeedsSubscribe(m.subs[e.t]) {
      SubscribeLists(m, e.t, e.env, l);
      ReconcileSubscribes(m, e.t, e.env, e.at, l);
      var putOff := !e.at.canReconcile || (m.removals != multiset{} && !e.at.waited);
      var from := if putOff then m else Subscribe(m, e.t, e.env, l).0;
      SameTracksAnnounced(from.subs, m'.subs);
    } else {
      OtherStepsKeepTracks(m, e, l);
      SameTracksAnnounced(m.subs, m'.subs);
    }
  }

  /** In every run each announced track is listed under its publisher. */
  lemma {:induction false} RunCovers(es: seq<Event>, l: Limits)
    ensures ListCovers(Run(es, l).subs, Run(es, l).subscribedTo)
  {
    if es != [] {
      RunCovers(es[..|es| - 1], l);
      StepCovers(Run(es[..|es| - 1], l), es[|es| - 1], l);
    }
  }

  lemma RunThen(es: seq<Event>, e: Event, l: Limits)
    ensures Run(es + [e], l) == Step(Run(es, l), e, l)
  {
    assert (es + [e])[..|es|] == es;
  }

  /** The two ways in which "subscribed to" and "has a live track" come apart. */
  lemma ListAndTracksCanDiffer(t: TrackID, p: ParticipantID, l: Limits)
    ensures var at := Moment(true, 0, true, false);
            var already :=
                Run([SubscribeRequest(t)]
                + [ReconcileOne(t, Env(true, true, Data, p, true, AlreadySubscribed, true), at)], l);
            var revoked :=
                Run([SubscribeRequest(t)] + [ReconcileOne(t, Env(true, true, Data, p, true, Added, false), at)], l);
            && p in already.subscribedTo && t in already.subs && already.subs[t].track.None?
            && p !in revoked.subscribedTo && t in revoked.subs && revoked.subs[t].track.Some?
                && revoked.subs[t].publisher == p
  {
    var at := Moment(true, 0, true, false);
    RunThen([], SubscribeRequest(t), l);
    assert [] + [SubscribeRequest(t)] == [SubscribeRequest(t)];
    RunThen([SubscribeRequest(t)], ReconcileOne(t, Env(true, true, Data, p, true, AlreadySubscribed, true), at), l);
    RunThen([SubscribeRequest(t)], ReconcileOne(t, Env(true, true, Data, p, true, Added, false), at), l);
  }

  ghost predicate AllAnnounced(subs: map<TrackID, Sub>) {
    forall t :: t in subs && subs[t].track.Some? ==> subs[t].track.value.announced
  }

  lemma CloseAnnounces(m: Manager, t: TrackID, l: Limits)
    requires AllAnnounced(m.subs)
    ensures AllAnnounced(HandleClose(m, t, l).subs)
  {
    if t in m.subs && m.subs[t].track.Some? {
      assert HandleClose(m, t, l).subs == m.subs[t := m.subs[t].(track := None, bound := false)];
    }
  }

  // ---------------------------------------------------------------------------------------
  // Exactly when the list and the live tracks agree
  // ---------------------------------------------------------------------------------------

  /** The reconcile goes ahead with a subscribe. */
  predicate Subscribes(m: Manager, e: Event) {
    && e.ReconcileOne? && e.t in m.subs && NeedsSubscribe(m.subs[e.t])
    && e.at.canReconcile && (m.removals == multiset{} || e.at.waited)
  }

  /** The subscribe comes to this end. */
  predicate EndsAs(m: Manager, e: Event, o: Outcome, l: Limits) {
    Subscribes(m, e) && Attempt(m, m.subs[e.t], e.env, l).1 == o
  }

  lemma SubscribeStep(m: Manager, e: Event, l: Limits)
    requires Subscribes(m, e)
    ensures var m', m1 := Step(m, e, l), Subscribe(m, e.t, e.env, l).0;
            SameTracks(m1.subs, m'.subs) && m'.subscribedTo == m1.subscribedTo
  {
    ReconcileSubscribes(m, e.t, e.env, e.at, l);
  }

  /** A reconcile that does not go ahead, or is of no such entry, is among the steps that keep tracks. */
  lemma NoSubscribeStep(m: Manager, e: Event, l: Limits)
    requires !Subscribes(m, e) && !e.TrackCloses?
    ensures SameTracks(m.subs, Step(m, e, l).subs) && Step(m, e, l).subscribedTo == m.subscribedTo
  {
    if e.ReconcileOne? && e.t in m.subs && NeedsSubscribe(m.subs[e.t]) {
      ReconcileSubscribes(m, e.t, e.env, e.at, l);
    } else {
      OtherStepsKeepTracks(m, e, l);
    }
  }

  /** The outcome decides: only an "already subscribed" lists a track without announcing it. */
  lemma SubscribeExactIff(m: Manager, t: TrackID, env: Env, l: Limits)
    requires t in m.subs && m.subs[t].track.None? && ListCovers(m.subs, m.subscribedTo)
        && ListExact(m.subs, m.subscribedTo)
    ensures var m' := Subscribe(m, t, env, l).0;
            ListExact(m'.subs, m'.subscribedTo) <==> Attempt(m, m.subs[t], env, l).1 != Already
  {
    AttemptAnnounces(m, t, env, l);
    var (s, o) := Attempt(m, m.subs[t], env, l);
    if o == Recorded {
      MarkLists(Count(With(m, t, s), env.kind, 1), env.publisher, t);
    } else if o == Already {
      MarkLists(With(m, t, s), env.publisher, t);
      assert Listed(Subscribe(m, t, env, l).0.subscribedTo, env.publisher, t);
      assert !Announced(Subscribe(m, t, env, l).0.subs, t, env.publisher);
    }
  }

  lemma StepExactIff(m: Manager, e: Event, l: Limits)
    requires ListCovers(m.subs, m.subscribedTo) && ListExact(m.subs, m.subscribedTo)
    ensures ListExact(Step(m, e, l).subs, Step(m, e, l).subscribedTo) <==> !EndsAs(m, e, Already, l)
  {
    if Subscribes(m, e) {
      SubscribeExactIff(m, e.t, e.env, l);
      SubscribeStep(m, e, l);
      SameTracksAnnounced(Subscribe(m, e.t, e.env, l).0.subs, Step(m, e, l).subs);
    } else if e.TrackCloses? {
      CloseLists(m, e.t, l);
    } else {
      NoSubscribeStep(m, e, l);
      SameTracksAnnounced(m.subs, Step(m, e, l).subs);
    }
  }

  /** The outcome decides: only a subscribe revoked while under way leaves a live track unannounced. */
  lemma SubscribeAnnouncesIff(m: Manager, t: TrackID, env: Env, l: Limits)
    requires t in m.subs && m.subs[t].track.None? && AllAnnounced(m.subs)
    ensures AllAnnounced(Subscribe(m, t, env, l).0.subs) <==> Attempt(m, m.subs[t], env, l).1 != Revoked
  {
    var (s, o) := Attempt(m, m.subs[t], env, l);
    var subs := Subscribe(m, t, env, l).0.subs;
    assert subs == m.subs[t := s];
    assert subs[t] == s;
    assert o == Revoked <==> s.track.Some? && !s.track.value.announced;
  }

  lemma SameTracksAllAnnounced(subs: map<TrackID, Sub>, subs': map<TrackID, Sub>)
    requires SameTracks(subs, subs')
    ensures AllAnnounced(subs') <==> AllAnnounced(subs)
  {
  }

  lemma StepAnnouncesIff(m: Manager, e: Event, l: Limits)
    requires AllAnnounced(m.subs)
    ensures AllAnnounced(Step(m, e, l).subs) <==> !EndsAs(m, e, Revoked, l)
  {
    if Subscribes(m, e) {
      SubscribeAnnouncesIff(m, e.t, e.env, l);
      SubscribeStep(m, e, l);
      SameTracksAllAnnounced(Subscribe(m, e.t, e.env, l).0.subs, Step(m, e, l).subs);
    } else if e.TrackCloses? {
      CloseAnnounces(m, e.t, l);
    } else {
      NoSubscribeStep(m, e, l);
      SameTracksAllAnnounced(m.subs, Step(m, e, l).subs);
    }
  }

  /** No subscribe of the run came to this end. */
  predicate NeverEndsAs(es: seq<Event>, o: Outcome, l: Limits) {
    es == [] || (NeverEndsAs(es[..|es| - 1], o, l) && !EndsAs(Run(es[..|es| - 1], l), es[|es| - 1], o, l))
  }

  ghost predicate AlwaysExact(es: seq<Event>, l: Limits) {
    ListExact(Run(es, l).subs, Run(es, l).subscribedTo) && (es == [] || AlwaysExact(es[..|es| - 1], l))
  }

  ghost predicate AlwaysAnnounced(es: seq<Event>, l: Limits) {
    AllAnnounced(Run(es, l).subs) && (es == [] || AlwaysAnnounced(es[..|es| - 1], l))
  }

  /** Only announced tracks are listed throughout a run exactly when no subscribe was answered "already subscribed". */
  lemma {:induction false} AlwaysExactIff(es: seq<Event>, l: Limits)
    ensures AlwaysExact(es, l) <==> NeverEndsAs(es, Already, l)
  {
    if es != [] {
      AlwaysExactIff(es[..|es| - 1], l);
      if AlwaysExact(es[..|es| - 1], l) {
        RunCovers(es[..|es| - 1], l);
        assert ListExact(Run(es[..|es| - 1], l).subs, Run(es[..|es| - 1], l).subscribedTo);
        StepExactIff(Run(es[..|es| - 1], l), es[|es| - 1], l);
      }
    }
  }

  /** Every live track is announced throughout a run exactly when no subscribe was revoked while under way. */
  lemma {:induction false} AlwaysAnnouncedIff(es: seq<Event>, l: Limits)
    ensures AlwaysAnnounced(es, l) <==> NeverEndsAs(es, Revoked, l)
  {
    if es != [] {
      AlwaysAnnouncedIff(es[..|es| - 1], l);
      if AlwaysAnnounced(es[..|es| - 1], l) {
        assert AllAnnounced(Run(es[..|es| - 1], l).subs);
        StepAnnouncesIff(Run(es[..|es| - 1], l), es[|es| - 1], l);
      }
    }
  }

  predicate IsLive(subs: map<TrackID, Sub>, t: TrackID, p: ParticipantID) {
    t in subs && subs[t].track.Some? && subs[t].publisher == p
  }

  /** The list is that of the live tracks, each under its publisher. */
  ghost predicate ListsLive(subs: map<TrackID, Sub>, to: map<ParticipantID, set<TrackID>>) {
    forall p, t :: Listed(to, p, t) <==> IsLive(subs, t, p)
  }

  ghost predicate AlwaysListsLive(es: seq<Event>, l: Limits) {
    ListsLive(Run(es, l).subs, Run(es, l).subscribedTo) && (es == [] || AlwaysListsLive(es[..|es| - 1], l))
  }

  lemma ExactAndAnnouncedListsLive(subs: map<TrackID, Sub>, to: map<ParticipantID, set<TrackID>>)
    requires ListCovers(subs, to) && ListExact(subs, to) && AllAnnounced(subs)
    ensures ListsLive(subs, to)
  {
    forall p, t
      ensures Listed(to, p, t) <==> IsLive(subs, t, p)
    {
      assert IsLive(subs, t, p) <==> Announced(subs, t, p);
    }
  }

  /** The first subscribe that ends badly leaves a track listed and not live, or live and not listed. */
  lemma BadEndShows(m: Manager, e: Event, l: Limits)
    requires ListCovers(m.subs, m.subscribedTo) && ListExact(m.subs, m.subscribedTo)
    requires EndsAs(m, e, Already, l) || EndsAs(m, e, Revoked, l)
    ensures !ListsLive(Step(m, e, l).subs, Step(m, e, l).subscribedTo)
  {
    var m1 := Subscribe(m, e.t, e.env, l).0;
    var p := e.env.publisher;
    SubscribeStep(m, e, l);
    SameTracksLive(m1.subs, Step(m, e, l).subs);
    if EndsAs(m, e, Already, l) {
      var s := Attempt(m, m.subs[e.t], e.env, l).0;
      MarkLists(With(m, e.t, s), p, e.t);
      assert Listed(m1.subscribedTo, p, e.t) && !IsLive(m1.subs, e.t, p);
    } else {
      assert !Announced(m.subs, e.t, p);
      assert !Listed(m1.subscribedTo, p, e.t) && IsLive(m1.subs, e.t, p);
    }
  }

  lemma SameTracksLive(subs: map<TrackID, Sub>, subs': map<TrackID, Sub>)
    requires SameTracks(subs, subs')
    ensures forall t, p :: IsLive(subs', t, p) <==> IsLive(subs, t, p)
  {
  }

  /**
   Throughout a run subscribedTo lists exactly the live tracks, each under its publisher, if and only if no
   subscribe of the run was answered "already subscribed" and none was revoked while under way.
   */
  lemma {:induction false} ListedIffLive(es: seq<Event>, l: Limits)
    ensures AlwaysListsLive(es, l) <==> NeverEndsAs(es, Already, l) && NeverEndsAs(es, Revoked, l)
  {
    AlwaysExactIff(es, l);
    AlwaysAnnouncedIff(es, l);
    if es == [] {
      RunCovers(es, l);
      ExactAndAnnouncedListsLive(Run(es, l).subs, Run(es, l).subscribedTo);
    } else {
      var init, e := es[..|es| - 1], es[|es| - 1];
      ListedIffLive(init, l);
      if NeverEndsAs(es, Already, l) && NeverEndsAs(es, Revoked, l) {
        RunCovers(es, l);
        ExactAndAnnouncedListsLive(Run(es, l).subs, Run(es, l).subscribedTo);
      } else if NeverEndsAs(init, Already, l) && NeverEndsAs(init, Revoked, l) {
        AlwaysExactIff(init, l);
        RunCovers(init, l);
        assert ListExact(Run(init, l).subs, Run(init, l).subscribedTo);
        BadEndShows(Run(init, l), e, l);
      }
    }
  }

  /** In such a run a publisher is in subscribedTo exactly while some track of theirs is subscribed. */
  lemma PublisherListedIffSubscribed(es: seq<Event>, p: ParticipantID, l: Limits)
    requires NeverEndsAs(es, Already, l) && NeverEndsAs(es, Revoked, l)
    ensures p in Run(es, l).subscribedTo <==> exists t :: IsLive(Run(es, l).subs, t, p)
  {
    ListedIffLive(es, l);
    RunCovers(es, l);
    var m := Run(es, l);
    assert ListsLive(m.subs, m.subscribedTo);
    if p in m.subscribedTo {
      var t :| t in m.subscribedTo[p];
      assert Listed(m.subscribedTo, p, t);
    }
    if t :| IsLive(m.subs, t, p) {
      assert Listed(m.subscribedTo, p, t);
    }
  }

  // ---------------------------------------------------------------------------------------
  // What it takes to become live
  // ---------------------------------------------------------------------------------------

  predicate HasTrack(subs: map<TrackID, Sub>, t: TrackID) { t in subs && subs[t].track.Some? }

  /** The event subscribes: its entry is desired without a track, and nothing puts the subscribe off. */
  predicate GoesAhead(m: Manager, e: Event) {
    && e.ReconcileOne? && e.t in m.subs && m.subs[e.t].desired && m.subs[e.t].track.None?
    && e.at.canReconcile && (m.removals == multiset{} || e.at.waited)
  }

  /** And gets as far as AddSubscriber, with room counted in live tracks. */
  ghost predicate ReachesAdd(m: Manager, e: Event, l: Limits) {
    && GoesAhead(m, e)
    && Admits(m.subs[e.t], |LiveTracks(m.subs, Video)|, |LiveTracks(m.subs, Audio)|, e.env, l)
  }

  /**
   The outcomes, from the event and the live tracks: in every run a subscribe is recorded, revoked under way or
   answered "already subscribed" exactly if it gets as far as AddSubscriber and that answers so.
   */
  lemma OutcomesAreGranted(es: seq<Event>, e: Event, l: Limits)
    ensures var m := Run(es, l);
            && (EndsAs(m, e, Recorded, l) <==>
                  ReachesAdd(m, e, l) && e.env.add == Added && e.env.canSubscribeAfter)
            && (EndsAs(m, e, Revoked, l) <==>
                  ReachesAdd(m, e, l) && e.env.add == Added && !e.env.canSubscribeAfter)
            && (EndsAs(m, e, Already, l) <==> ReachesAdd(m, e, l) && e.env.add == AlreadySubscribed)
  {
    CountersAreExactAndLimited(es, l);
  }

  lemma SameTracksHave(subs: map<TrackID, Sub>, subs': map<TrackID, Sub>)
    requires SameTracks(subs, subs')
    ensures forall t :: HasTrack(subs', t) <==> HasTrack(subs, t)
    ensures forall t :: HasTrack(subs, t) ==>
              subs'[t].track.value.kind == subs[t].track.value.kind && subs'[t].publisher == subs[t].publisher
  {
  }

  /**
   What a subscribe comes to: a track exactly if it is let in and the subscriber is added; no error exactly if
   it is let in and the subscriber is added for good, or was there already; and which error says "not found".
   */
  lemma SubscribeGives(m: Manager, t: TrackID, env: Env, l: Limits)
    requires t in m.subs && m.subs[t].track.None?
    ensures var (m', err) := Subscribe(m, t, env, l);
            var s, s', letIn := m.subs[t], m'.subs[t], Admits(m.subs[t], m.videoCount, m.audioCount, env, l);
            && m'.subs == m.subs[t := s'] && s'.desired == s.desired && s'.keepUntil == s.keepUntil
            && (s'.track.Some? <==> letIn && env.add == Added)
            && (s'.track.Some? ==>
                  && s'.track.value == Live(env.kind, !env.canSubscribeAfter, env.canSubscribeAfter)
                  && s'.publisher == env.publisher && !s'.bound)
            && (err.None? <==> letIn && (env.add == AlreadySubscribed || (env.add == Added && env.canSubscribeAfter)))
            && (err == Some(TrackNotFound) <==>
                  && env.canSubscribe && !env.found
                  && (s.kind.Some? ==> Room(m.videoCount, m.audioCount, s.kind.value, l)))
  {
  }

  /** Each refusal, exactly when it is given; and the kind is noted once the track has been found. */
  lemma SubscribeRefuses(m: Manager, t: TrackID, env: Env, l: Limits)
    requires t in m.subs
    ensures var (m', err) := Subscribe(m, t, env, l);
            var s, letIn := m.subs[t], Admits(m.subs[t], m.videoCount, m.audioCount, env, l);
            var known := s.kind.Some? ==> Room(m.videoCount, m.audioCount, s.kind.value, l);
            var room := Room(m.videoCount, m.audioCount, env.kind, l);
            && (err == Some(NoSubscribePermission) <==>
                  !env.canSubscribe || (letIn && env.add == Added && !env.canSubscribeAfter))
            && (err == Some(LimitExceeded) <==> env.canSubscribe && (!known || (env.found && !room)))
            && (err == Some(NoTrackPermission) <==>
                  env.canSubscribe && known && env.found && room && !env.hasPermission)
            && (err == Some(AddError) <==> letIn && env.add == AddFailed)
            && (s.kind.None? && env.canSubscribe && env.found ==> m'.subs[t].kind == Some(env.kind))
            && (s.kind.Some? || !env.canSubscribe || !env.found ==> m'.subs[t].kind == s.kind)
  {
  }

  /** The track has the kind and the publisher it had. */
  predicate AsBefore(subs: map<TrackID, Sub>, subs': map<TrackID, Sub>, t: TrackID)
    requires HasTrack(subs, t) && HasTrack(subs', t)
  {
    subs'[t].track.value.kind == subs[t].track.value.kind && subs'[t].publisher == subs[t].publisher
  }

  /** What does not subscribe gives no track, and takes none but by its close. */
  lemma OtherwiseAsBefore(m: Manager, e: Event, t: TrackID, l: Limits)
    requires !Subscribes(m, e)
    ensures var subs := Step(m, e, l).subs;
            && (HasTrack(subs, t) <==> HasTrack(m.subs, t) && e != TrackCloses(t))
            && (HasTrack(subs, t) ==> AsBefore(m.subs, subs, t))
  {
    if !e.TrackCloses? {
      NoSubscribeStep(m, e, l);
      SameTracksHave(m.subs, Step(m, e, l).subs);
    }
  }

  lemma SubscribingGives(m: Manager, e: Event, t: TrackID, l: Limits)
    requires Subscribes(m, e)
    ensures var subs := Step(m, e, l).subs;
            var gives := Admits(m.subs[e.t], m.videoCount, m.audioCount, e.env, l) && e.env.add == Added;
            && (HasTrack(subs, t) <==> HasTrack(m.subs, t) || (e.t == t && gives))
            && (HasTrack(m.subs, t) ==> AsBefore(m.subs, subs, t))
            && (e.t == t && gives ==> subs[t].track.value.kind == e.env.kind && subs[t].publisher == e.env.publisher)
  {
    SubscribeGives(m, e.t, e.env, l);
    SubscribeStep(m, e, l);
    SameTracksHave(Subscribe(m, e.t, e.env, l).0.subs, Step(m, e, l).subs);
  }

  /** The exact condition on one event under which a track is live after it, and of what kind and publisher. */
  lemma StepOnTrack(m: Manager, e: Event, t: TrackID, l: Limits)
    requires CountsAreLive(m)
    ensures var subs := Step(m, e, l).subs;
            var gives := e.ReconcileOne? && e.t == t && ReachesAdd(m, e, l) && e.env.add == Added;
            && (HasTrack(subs, t) <==> if HasTrack(m.subs, t) then e != TrackCloses(t) else gives)
            && (HasTrack(subs, t) && HasTrack(m.subs, t) ==> AsBefore(m.subs, subs, t))
            && (HasTrack(subs, t) && !HasTrack(m.subs, t) ==>
                  subs[t].track.value.kind == e.env.kind && subs[t].publisher == e.env.publisher)
  {
    if Subscribes(m, e) {
      SubscribingGives(m, e, t, l);
    } else {
      OtherwiseAsBefore(m, e, t, l);
    }
  }

  /**
   In every run: a track that is not live becomes live with the next event exactly if that reconciles it, with
   the entry desired, no unsubscribe to wait for, permission to subscribe and to the track, the track found,
   room among the live tracks of its kind, and the subscriber added; and one that is live stays so but for its
   close.
   */
  lemma BecomesLiveIff(es: seq<Event>, e: Event, t: TrackID, l: Limits)
    ensures HasTrack(Run(es + [e], l).subs, t) <==>
              if HasTrack(Run(es, l).subs, t) then e != TrackCloses(t)
              else e.ReconcileOne? && e.t == t && ReachesAdd(Run(es, l), e, l) && e.env.add == Added
  {
    CountersAreExactAndLimited(es, l);
    RunThen(es, e, l);
    StepOnTrack(Run(es, l), e, t, l);
  }

  /** What the event itself has to say for a track to be live because of it. */
  predicate Grants(e: Event, t: TrackID, s: Sub) {
    && e.ReconcileOne? && e.t == t && e.at.canReconcile
    && e.env.canSubscribe && e.env.found && e.env.hasPermission && e.env.add == Added
    && s.track.Some? && s.track.value.kind == e.env.kind && s.publisher == e.env.publisher
  }

  /** A live track was made live by an event of the run that granted it, of that kind and publisher. */
  lemma {:induction false} LiveWasGranted(es: seq<Event>, t: TrackID, l: Limits) returns (k: nat)
    requires HasTrack(Run(es, l).subs, t)
    ensures k < |es| && Grants(es[k], t, Run(es, l).subs[t])
  {
    var before, e := es[..|es| - 1], es[|es| - 1];
    CountersAreExactAndLimited(before, l);
    StepOnTrack(Run(before, l), e, t, l);
    if HasTrack(Run(before, l).subs, t) {
      k := LiveWasGranted(before, t, l);
    } else {
      k := |es| - 1;
    }
  }

  predicate IsBound(m: Manager, t: TrackID) { HasTrack(m.subs, t) && m.subs[t].bound }

  lemma ReconcileOnBound(m: Manager, e: Event, t: TrackID, l: Limits)
    requires e.ReconcileOne?
    ensures IsBound(Reconcile(m, e.t, e.env, e.at, l), t) <==> IsBound(m, t)
  {
    if GoesAhead(m, e) {
      SubscribeGives(m, e.t, e.env, l);
    }
  }

  /** A live track is bound from its bind on until it closes. */
  lemma BoundUntilClosed(m: Manager, e: Event, t: TrackID, l: Limits)
    ensures IsBound(Step(m, e, l), t) <==>
            (e == Bound(t) && HasTrack(m.subs, t)) || (IsBound(m, t) && e != TrackCloses(t))
  {
    if e.ReconcileOne? {
      ReconcileOnBound(m, e, t, l);
    } else if e.TrackCloses? {
      CloseOnBound(m, e.t, l);
    }
  }

  lemma CloseOnBound(m: Manager, t: TrackID, l: Limits)
    ensures forall u :: IsBound(HandleClose(m, t, l), u) <==> IsBound(m, u) && u != t
  {
  }

  /** The reconcile starts the removal of a track that is live and not desired. */
  predicate StartsRemoval(m: Manager, e: Event) {
    e.ReconcileOne? && e.at.canReconcile && HasTrack(m.subs, e.t) && !m.subs[e.t].desired
  }

  lemma ReconcileOnRemovals(m: Manager, e: Event, l: Limits)
    requires e.ReconcileOne?
    ensures Reconcile(m, e.t, e.env, e.at, l).removals
            == m.removals + if StartsRemoval(m, e) then multiset{e.t} else multiset{}
  {
  }

  /** Removals in flight are those started and not yet run; one that runs begins the close of a live track. */
  lemma RemovalsAreThoseStarted(m: Manager, e: Event, l: Limits)
    ensures Step(m, e, l).removals
            == if e.Removal? then m.removals - multiset{e.t}
               else m.removals + if StartsRemoval(m, e) then multiset{e.t} else multiset{}
    ensures e.Removal? && e.t in m.removals && HasTrack(m.subs, e.t) ==>
              var live := m.subs[e.t].track.value;
              Step(m, e, l).subs == m.subs[e.t := m.subs[e.t].(track := Some(live.(closing := true)))]
  {
    if e.ReconcileOne? {
      ReconcileOnRemovals(m, e, l);
    }
  }

  predicate Wants(m: Manager, t: TrackID) { t in m.subs && m.subs[t].desired }

  /** The reconcile gives up on a track that has not been found for long. */
  predicate GivesUp(m: Manager, e: Event, l: Limits) {
    && GoesAhead(m, e) && e.env.canSubscribe && !e.env.found && e.at.notFoundForLong
    && (m.subs[e.t].kind.Some? ==> Room(m.videoCount, m.audioCount, m.subs[e.t].kind.value, l))
  }

  lemma ReconcileOnWish(m: Manager, e: Event, t: TrackID, l: Limits)
    requires e.ReconcileOne?
    ensures Wants(Reconcile(m, e.t, e.env, e.at, l), t) <==> Wants(m, t) && !(e.t == t && GivesUp(m, e, l))
  {
    if GoesAhead(m, e) {
      SubscribeGives(m, e.t, e.env, l);
    }
  }

  lemma CloseOnWish(m: Manager, t: TrackID, l: Limits)
    ensures forall u :: Wants(HandleClose(m, t, l), u) <==> Wants(m, u)
  {
  }

  /** A track is desired from a subscribe request on until something takes that back. */
  lemma DesiredUntilTakenBack(m: Manager, e: Event, t: TrackID, l: Limits)
    ensures Wants(Step(m, e, l), t) <==>
              || e == SubscribeRequest(t)
              || (Wants(m, t) && !(e == UnsubscribeRequest(t) || e == SourceGone(t) || e == ClearRequest
                                   || (e.ReconcileOne? && e.t == t && GivesUp(m, e, l))))
  {
    if e.ReconcileOne? {
      ReconcileOnWish(m, e, t, l);
    } else if e.TrackCloses? {
      CloseOnWish(m, e.t, l);
    }
  }

  // ---------------------------------------------------------------------------------------
  // Status callbacks
  // ---------------------------------------------------------------------------------------

  /** The last status reported for a publisher; unsubscribed to begin with. */
  function LastStatus(log: seq<(ParticipantID, bool)>, p: ParticipantID): bool {
    if log == [] then false
    else if log[|log| - 1].0 == p then log[|log| - 1].1
    else LastStatus(log[..|log| - 1], p)
  }

  /** Each call reports a change. */
  predicate Alternates(log: seq<(ParticipantID, bool)>) {
    log == [] ||
    (Alternates(log[..|log| - 1]) && log[|log| - 1].1 != LastStatus(log[..|log| - 1], log[|log| - 1].0))
  }

  ghost predicate Reported(log: seq<(ParticipantID, bool)>, to: map<ParticipantID, set<TrackID>>) {
    Alternates(log) && forall p :: LastStatus(log, p) <==> p in to
  }

  lemma ReportChange(log: seq<(ParticipantID, bool)>, to: map<ParticipantID, set<TrackID>>,
                     to': map<ParticipantID, set<TrackID>>, p: ParticipantID)
    requires Reported(log, to)
    requires p in to' <==> p !in to
    requires forall q :: q != p ==> (q in to' <==> q in to)
    ensures Reported(log + [(p, p in to')], to')
  {
    assert (log + [(p, p in to')])[..|log|] == log;
  }

  lemma MarkReports(m: Manager, p: ParticipantID, t: TrackID)
    requires Reported(m.status, m.subscribedTo)
    ensures Reported(Mark(m, p, t).status, Mark(m, p, t).subscribedTo)
  {
    if p !in m.subscribedTo {
      ReportChange(m.status, m.subscribedTo, Mark(m, p, t).subscribedTo, p);
    }
  }

  lemma UnmarkReports(m: Manager, p: ParticipantID, t: TrackID)
    requires Reported(m.status, m.subscribedTo)
    ensures Reported(Unmark(m, p, t).status, Unmark(m, p, t).subscribedTo)
  {
    if p in m.subscribedTo && m.subscribedTo[p] - {t} == {} {
      ReportChange(m.status, m.subscribedTo, Unmark(m, p, t).subscribedTo, p);
    }
  }

  lemma SubscribeReports(m: Manager, t: TrackID, env: Env, l: Limits)
    requires t in m.subs && Reported(m.status, m.subscribedTo)
    ensures var m' := Subscribe(m, t, env, l).0; Reported(m'.status, m'.subscribedTo)
  {
    var (s, o) := Attempt(m, m.subs[t], env, l);
    if o == Recorded {
      MarkReports(Count(With(m, t, s), env.kind, 1), env.publisher, t);
    } else if o == Already {
      MarkReports(With(m, t, s), env.publisher, t);
    }
  }

  lemma CloseReports(m: Manager, t: TrackID, l: Limits)
    requires Reported(m.status, m.subscribedTo)
    ensures var m' := HandleClose(m, t, l); Reported(m'.status, m'.subscribedTo)
  {
    if t in m.subs && m.subs[t].track.Some? {
      UnmarkReports(Count(With(m, t, m.subs[t].(track := None, bound := false)), m.subs[t].track.value.kind, -1),
          m.subs[t].publisher, t);
    }
  }

  lemma StepReports(m: Manager, e: Event, l: Limits)
    requires Reported(m.status, m.subscribedTo)
    ensures Reported(Step(m, e, l).status, Step(m, e, l).subscribedTo)
  {
    if e.TrackCloses? {
      CloseReports(m, e.t, l);
    } else if e.ReconcileOne? && e.t in m.subs && NeedsSubscribe(m.subs[e.t]) {
      SubscribeReports(m, e.t, e.env, l);
      ReconcileSubscribes(m, e.t, e.env, e.at, l);
    } else {
      OtherStepsKeepTracks(m, e, l);
    }
  }

  /** In every run the calls for one publisher alternate subscribed, unsubscribed, and the last one tells the truth. */
  lemma {:induction false} StatusAlternates(es: seq<Event>, l: Limits)
    ensures Alternates(Run(es, l).status)
    ensures forall p :: LastStatus(Run(es, l).status, p) <==> p in Run(es, l).subscribedTo
  {
    if es != [] {
      StatusAlternates(es[..|es| - 1], l);
      StepReports(Run(es[..|es| - 1], l), es[|es| - 1], l);
    }
  }
}
