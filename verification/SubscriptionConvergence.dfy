/**
 Convergence of the subscription reconciler: once requests stop and every track can be resolved and is
 permitted, with capacity for all that is desired, reconciles, removals and closes in any interleaving
 bring every entry to rest.
 */
module SubscriptionConvergence {
  import opened Prelude
  import opened Subscriptions

  /** What the resolver answers, once and for all. */
  datatype World = World(kindOf: TrackID -> Kind, publisherOf: TrackID -> ParticipantID)

  function GoodEnv(w: World, t: TrackID): Env {
    Env(true, true, w.kindOf(t), w.publisherOf(t), true, Added, true)
  }

  /** What still happens: reconciles, RemoveSubscriber goroutines running, and closes they have begun. */
  datatype Quiet = Rec(t: TrackID, at: Moment) | Rem(t: TrackID) | Cls(t: TrackID)

  /** The manager's event this is. */
  function AsEvent(e: Quiet, w: World): Event {
    match e
    case Rec(t, at) => ReconcileOne(t, GoodEnv(w, t), at)
    case Rem(t) => Removal(t)
    case Cls(t) => TrackCloses(t)
  }

  /** A track closes only once that has begun. */
  predicate Happens(m: Manager, e: Quiet) {
    e.Cls? ==> e.t in m.subs && m.subs[e.t].track.Some? && m.subs[e.t].track.value.closing
  }

  function QStep(m: Manager, e: Quiet, w: World, l: Limits): Manager {
    if Happens(m, e) then Step(m, AsEvent(e, w), l) else m
  }

  function Exec(m: Manager, es: seq<Quiet>, w: World, l: Limits): Manager {
    if es == [] then m else QStep(Exec(m, es[..|es| - 1], w, l), es[|es| - 1], w, l)
  }

  // ---------------------------------------------------------------------------------------
  // Hypotheses
  // ---------------------------------------------------------------------------------------

  function Desired(m: Manager, w: World, k: Kind): set<TrackID> {
    set t | t in m.subs && m.subs[t].desired && w.kindOf(t) == k
  }

  /** The limits leave room for everything that is desired. */
  ghost predicate Roomy(m: Manager, w: World, l: Limits) {
    && (l.video > 0 ==> |Desired(m, w, Video)| <= l.video)
    && (l.audio > 0 ==> |Desired(m, w, Audio)| <= l.audio)
  }

  /** The kinds recorded so far are those of the tracks. */
  predicate KindsAgree(m: Manager, w: World) {
    forall t :: t in m.subs ==>
      && (m.subs[t].kind.Some? ==> m.subs[t].kind.value == w.kindOf(t))
      && (m.subs[t].track.Some? ==> m.subs[t].track.value.kind == w.kindOf(t))
  }

  ghost predicate Consistent(m: Manager, w: World, l: Limits) {
    KindsAgree(m, w) && Roomy(m, w, l) && CountsAreLive(m) && WithinLimits(m, l)
  }

  // ---------------------------------------------------------------------------------------
  // The measure
  // ---------------------------------------------------------------------------------------

  /**
   How far an entry is from rest. A removal still in flight for a desired track may yet close it and
   cost a new subscribe; for a track that is not desired further removals change nothing.
   */
  function Weight(m: Manager, t: TrackID): nat {
    if t !in m.subs then 0
    else
      var s := m.subs[t];
      if s.desired then
        3 * m.removals[t] + if s.track.None? then 1 else if s.track.value.closing then 2 else 0
      else if s.track.None? then 1 else if s.track.value.closing then 2 else 3
  }

  ghost function Sum(ts: set<TrackID>, f: TrackID -> nat): nat {
    if ts == {} then 0 else
    var t :| t in ts;
    f(t) + Sum(ts - {t}, f)
  }

  lemma {:induction false} SumWithout(ts: set<TrackID>, f: TrackID -> nat, t: TrackID)
    requires t in ts
    ensures Sum(ts, f) == f(t) + Sum(ts - {t}, f)
  {
    var u :| u in ts && Sum(ts, f) == f(u) + Sum(ts - {u}, f);
    if u != t {
      SumWithout(ts - {u}, f, t);
      SumWithout(ts - {t}, f, u);
      assert ts - {u} - {t} == ts - {t} - {u};
    }
  }

  lemma {:induction false} SumSame(ts: set<TrackID>, f: TrackID -> nat, g: TrackID -> nat)
    requires forall t :: t in ts ==> f(t) == g(t)
    ensures Sum(ts, f) == Sum(ts, g)
  {
    if ts != {} {
      var t :| t in ts;
      SumWithout(ts, f, t);
      SumWithout(ts, g, t);
      SumSame(ts - {t}, f, g);
    }
  }

  ghost function Measure(m: Manager): nat { Sum(m.subs.Keys, t => Weight(m, t)) }

  /** If only one entry changes, so does its part of the measure. */
  lemma OneWeightChanges(m: Manager, m': Manager, t: TrackID)
    requires m'.subs.Keys <= m.subs.Keys <= m'.subs.Keys + {t}
    requires forall u :: u != t ==> Weight(m', u) == Weight(m, u)
    ensures Measure(m') + Weight(m, t) == Measure(m) + Weight(m', t)
  {
    var f, f' := u => Weight(m, u), u => Weight(m', u);
    var rest := m.subs.Keys - {t};
    assert m'.subs.Keys - {t} == rest;
    SumSame(rest, f, f');
    if t in m.subs.Keys {
      SumWithout(m.subs.Keys, f, t);
    } else {
      assert m.subs.Keys == rest;
    }
    if t in m'.subs.Keys {
      SumWithout(m'.subs.Keys, f', t);
    } else {
      assert m'.subs.Keys == rest;
    }
  }

  // ---------------------------------------------------------------------------------------
  // One step
  // ---------------------------------------------------------------------------------------

  /** A subscribe is not put off: no removal is under way, or it has waited long enough for them. */
  predicate NoWait(m: Manager, at: Moment) { m.removals == multiset{} || at.waited }

  /** A step that is sure to bring its entry closer to rest. */
  predicate Helps(m: Manager, e: Quiet, w: World, l: Limits) {
    e.t in m.subs &&
    var s := m.subs[e.t];
    match e
    case Rec(t, at) =>
      && at.canReconcile && s.track.None?
      && if s.desired then NoWait(m, at) && HasCapacity(m, w.kindOf(t), l) else s.keepUntil <= at.now
    case Rem(t) => m.removals[t] > 0 && (s.desired || (s.track.Some? && !s.track.value.closing))
    case Cls(t) => s.track.Some? && s.track.value.closing
  }

  /** A step touches one entry, keeps its flags, and drops it only if it is not desired. */
  ghost predicate Local(m: Manager, m': Manager, t: TrackID) {
    && m'.subs.Keys <= m.subs.Keys <= m'.subs.Keys + {t}
    && (forall u :: u in m.subs && u != t ==> m'.subs[u] == m.subs[u])
    && (forall u :: u != t ==> m'.removals[u] == m.removals[u])
    && (t in m'.subs ==> m'.subs[t].desired == m.subs[t].desired && m'.subs[t].keepUntil == m.subs[t].keepUntil)
    && (t in m.subs && t !in m'.subs ==> !m.subs[t].desired)
  }

  /** Closer to rest if the step helps; otherwise as far as before, and no removal in flight is lost. */
  ghost predicate Weighs(m: Manager, m': Manager, t: TrackID, helps: bool) {
    if helps then Weight(m', t) < Weight(m, t)
    else
      && Weight(m', t) == Weight(m, t)
      && (t in m.subs ==> t in m'.subs)
      && (t in m.subs && Weight(m, t) == 3 && !m.subs[t].desired ==> m'.removals[t] >= m.removals[t])
  }

  /**
   A reconcile of a desired entry without a track that goes ahead: it is subscribed if there is room, else
   nothing happens.
   */
  lemma RecSubscribes(m: Manager, t: TrackID, at: Moment, w: World, l: Limits)
    requires KindsAgree(m, w) && t in m.subs && NeedsSubscribe(m.subs[t]) && at.canReconcile && NoWait(m, at)
    ensures var m' := QStep(m, Rec(t, at), w, l);
            && t in m'.subs && m'.subs == m.subs[t := m'.subs[t]] && m'.removals == m.removals
            && m'.subs[t].desired && m'.subs[t].keepUntil == m.subs[t].keepUntil && m'.subs[t].kind == Some(w.kindOf(t))
            && m'.subs[t].track == if HasCapacity(m, w.kindOf(t), l) then Some(Live(w.kindOf(t), false, true)) else None
  {
    var (s, o) := Attempt(m, m.subs[t], GoodEnv(w, t), l);
    assert o == if HasCapacity(m, w.kindOf(t), l) then Recorded else Refused(LimitExceeded);
    assert QStep(m, Rec(t, at), w, l).subs == m.subs[t := s];
  }

  lemma RecWeighs(m: Manager, t: TrackID, at: Moment, w: World, l: Limits)
    requires KindsAgree(m, w)
    ensures var m' := QStep(m, Rec(t, at), w, l);
            && KindsAgree(m', w) && Local(m, m', t) && Weighs(m, m', t, Helps(m, Rec(t, at), w, l))
            && (at.canReconcile && t in m.subs && t in m'.subs && !m.subs[t].desired && m.subs[t].track.Some?
                ==> m'.removals[t] == m.removals[t] + 1)
  {
    if t in m.subs && NeedsSubscribe(m.subs[t]) && at.canReconcile {
      if NoWait(m, at) {
        RecSubscribes(m, t, at, w, l);
      } else {
        assert QStep(m, Rec(t, at), w, l) == Enqueue(m, t);
      }
    }
  }

  lemma RemWeighs(m: Manager, t: TrackID, w: World, l: Limits)
    requires KindsAgree(m, w)
    ensures var m' := QStep(m, Rem(t), w, l);
            KindsAgree(m', w) && Local(m, m', t) && Weighs(m, m', t, Helps(m, Rem(t), w, l))
  {
    var m' := QStep(m, Rem(t), w, l);
    if m.removals[t] == 0 {
      assert m' == m;
    } else if t in m.subs && m.subs[t].track.Some? {
      assert m'.subs == m.subs[t := m.subs[t].(track := Some(m.subs[t].track.value.(closing := true)))];
    } else {
      assert m'.subs == m.subs;
    }
  }

  lemma ClsWeighs(m: Manager, t: TrackID, w: World, l: Limits)
    requires KindsAgree(m, w)
    ensures var m' := QStep(m, Cls(t), w, l);
            KindsAgree(m', w) && Local(m, m', t) && Weighs(m, m', t, Helps(m, Cls(t), w, l))
  {
    var m' := QStep(m, Cls(t), w, l);
    if Helps(m, Cls(t), w, l) {
      assert m'.subs == m.subs[t := m.subs[t].(track := None, bound := false)] && m'.removals == m.removals;
    } else {
      assert m' == m;
    }
  }

  lemma StepWeighs(m: Manager, e: Quiet, w: World, l: Limits)
    requires KindsAgree(m, w)
    ensures var m' := QStep(m, e, w, l);
            KindsAgree(m', w) && Local(m, m', e.t) && Weighs(m, m', e.t, Helps(m, e, w, l))
  {
    match e
    case Rec(t, at) => RecWeighs(m, t, at, w, l);
    case Rem(t) => RemWeighs(m, t, w, l);
    case Cls(t) => ClsWeighs(m, t, w, l);
  }

  /** Nothing has come closer to rest: the same entries with the same flags, weights and removals. */
  ghost predicate Alike(m: Manager, m': Manager) {
    && m'.subs.Keys == m.subs.Keys
    && (forall t :: t in m.subs ==>
          && Weight(m', t) == Weight(m, t)
          && m'.subs[t].desired == m.subs[t].desired && m'.subs[t].keepUntil == m.subs[t].keepUntil
          && (Weight(m, t) == 3 && !m.subs[t].desired ==> m'.removals[t] >= m.removals[t]))
  }

  lemma QuietCounts(m: Manager, e: Quiet, w: World, l: Limits)
    requires CountsAreLive(m) && WithinLimits(m, l)
    ensures CountsAreLive(QStep(m, e, w, l)) && WithinLimits(QStep(m, e, w, l), l)
  {
    if Happens(m, e) {
      StepKeepsCounts(m, AsEvent(e, w), l);
    }
  }

  lemma LocalKeepsDesired(m: Manager, m': Manager, t: TrackID, w: World)
    requires Local(m, m', t)
    ensures forall k :: Desired(m', w, k) == Desired(m, w, k)
  {
    forall k
      ensures Desired(m', w, k) == Desired(m, w, k)
    {
      forall u
        ensures u in Desired(m', w, k) <==> u in Desired(m, w, k)
      {
      }
    }
  }

  lemma StepKeepsConsistent(m: Manager, e: Quiet, w: World, l: Limits)
    requires Consistent(m, w, l)
    ensures Consistent(QStep(m, e, w, l), w, l)
  {
    QuietCounts(m, e, w, l);
    StepWeighs(m, e, w, l);
    LocalKeepsDesired(m, QStep(m, e, w, l), e.t, w);
  }

  /** A step that does not help leaves everything alike. */
  lemma IdleStepAlike(m: Manager, e: Quiet, w: World, l: Limits)
    requires KindsAgree(m, w) && !Helps(m, e, w, l)
    ensures Alike(m, QStep(m, e, w, l))
  {
    StepWeighs(m, e, w, l);
  }

  /** A step never raises the measure, and a step that helps lowers it. */
  lemma StepMeasures(m: Manager, e: Quiet, w: World, l: Limits)
    requires KindsAgree(m, w)
    ensures Measure(QStep(m, e, w, l)) + (if Helps(m, e, w, l) then 1 else 0) <= Measure(m)
  {
    StepWeighs(m, e, w, l);
    OneWeightChanges(m, QStep(m, e, w, l), e.t);
  }

  // ---------------------------------------------------------------------------------------
  // Fair rounds
  // ---------------------------------------------------------------------------------------

  /** Desired, subscribed and left alone; or kept for a subscribe that may come. */
  predicate AtRest(m: Manager, t: TrackID, now: nat)
    requires t in m.subs
  {
    var s := m.subs[t];
    if s.desired then s.track.Some? && !s.track.value.closing && m.removals[t] == 0
    else s.track.None? && now < s.keepUntil
  }

  predicate Fixpoint(m: Manager, now: nat) { forall t :: t in m.subs ==> AtRest(m, t, now) }

  /** The reconcile is able to go ahead, at or after `now`. */
  predicate Able(e: Quiet, t: TrackID, now: nat) {
    e.Rec? && e.t == t && e.at.canReconcile && e.at.waited && e.at.now >= now
  }

  /**
   The entry is ably reconciled, then a removal of it runs if there is one, then its close completes if it
   has begun.
   */
  predicate ServedAt(es: seq<Quiet>, t: TrackID, now: nat, i: nat, j: nat, k: nat) {
    i < j < k < |es| && Able(es[i], t, now) && es[j] == Rem(t) && es[k] == Cls(t)
  }

  ghost predicate Served(es: seq<Quiet>, t: TrackID, now: nat) { exists i, j, k :: ServedAt(es, t, now, i, j, k) }

  /** Every entry is served at least once, in any interleaving with anything else, reconciles put off included. */
  ghost predicate FairRound(es: seq<Quiet>, ts: set<TrackID>, now: nat) { forall t :: t in ts ==> Served(es, t, now) }

  /** No step of the run helps. */
  predicate Idle(m: Manager, es: seq<Quiet>, w: World, l: Limits) {
    es == [] || (Idle(m, es[..|es| - 1], w, l) && !Helps(Exec(m, es[..|es| - 1], w, l), es[|es| - 1], w, l))
  }

  lemma {:induction false} ExecKeeps(m: Manager, es: seq<Quiet>, w: World, l: Limits)
    requires Consistent(m, w, l)
    ensures Consistent(Exec(m, es, w, l), w, l)
    ensures Exec(m, es, w, l).subs.Keys <= m.subs.Keys
  {
    if es != [] {
      var before := Exec(m, es[..|es| - 1], w, l);
      ExecKeeps(m, es[..|es| - 1], w, l);
      StepKeepsConsistent(before, es[|es| - 1], w, l);
      StepWeighs(before, es[|es| - 1], w, l);
    }
  }

  /** A run with a step that helps lowers the measure; no run raises it. */
  lemma {:induction false} ExecMeasures(m: Manager, es: seq<Quiet>, w: World, l: Limits)
    requires Consistent(m, w, l)
    ensures Measure(Exec(m, es, w, l)) + (if Idle(m, es, w, l) then 0 else 1) <= Measure(m)
  {
    if es != [] {
      ExecMeasures(m, es[..|es| - 1], w, l);
      ExecKeeps(m, es[..|es| - 1], w, l);
      StepMeasures(Exec(m, es[..|es| - 1], w, l), es[|es| - 1], w, l);
    }
  }

  /** At each point of an idle run the next step does not help. */
  lemma {:induction false} IdleAt(m: Manager, es: seq<Quiet>, k: nat, w: World, l: Limits)
    requires Idle(m, es, w, l) && k < |es|
    ensures Idle(m, es[..k], w, l) && !Helps(Exec(m, es[..k], w, l), es[k], w, l)
    ensures Exec(m, es[..k + 1], w, l) == QStep(Exec(m, es[..k], w, l), es[k], w, l)
    decreases |es|
  {
    assert es[..k + 1][..k] == es[..k];
    if k < |es| - 1 {
      IdleAt(m, es[..|es| - 1], k, w, l);
      assert es[..|es| - 1][..k] == es[..k];
    }
  }

  lemma AlikeTransitive(a: Manager, b: Manager, c: Manager)
    requires Alike(a, b) && Alike(b, c)
    ensures Alike(a, c)
  {
  }

  lemma IdleStep(m: Manager, es: seq<Quiet>, k: nat, w: World, l: Limits)
    requires Consistent(m, w, l) && Idle(m, es, w, l) && k < |es|
    ensures Alike(Exec(m, es[..k], w, l), Exec(m, es[..k + 1], w, l))
  {
    IdleAt(m, es, k, w, l);
    ExecKeeps(m, es[..k], w, l);
    IdleStepAlike(Exec(m, es[..k], w, l), es[k], w, l);
  }

  lemma {:induction false} AlikeAlong(states: seq<Manager>, i: nat, j: nat)
    requires i <= j < |states|
    requires forall k :: i <= k < j ==> Alike(states[k], states[k + 1])
    ensures Alike(states[i], states[j])
    decreases j
  {
    if i < j {
      AlikeAlong(states, i, j - 1);
      assert Alike(states[j - 1], states[j - 1 + 1]);
      AlikeTransitive(states[i], states[j - 1], states[j]);
    }
  }

  /** All states of an idle run are alike. */
  lemma IdleAlike(m: Manager, es: seq<Quiet>, i: nat, j: nat, w: World, l: Limits)
    requires Consistent(m, w, l) && Idle(m, es, w, l) && i <= j <= |es|
    ensures Alike(Exec(m, es[..i], w, l), Exec(m, es[..j], w, l))
  {
    var states := seq(|es| + 1, k requires 0 <= k <= |es| => Exec(m, es[..k], w, l));
    forall k | i <= k < j
      ensures Alike(states[k], states[k + 1])
    {
      IdleStep(m, es, k, w, l);
    }
    AlikeAlong(states, i, j);
  }

  lemma IdleFromStart(m: Manager, es: seq<Quiet>, k: nat, w: World, l: Limits)
    requires Consistent(m, w, l) && Idle(m, es, w, l) && k < |es|
    ensures Alike(m, Exec(m, es[..k], w, l)) && Consistent(Exec(m, es[..k], w, l), w, l)
    ensures !Helps(Exec(m, es[..k], w, l), es[k], w, l)
  {
    IdleAlike(m, es, 0, k, w, l);
    assert es[..0] == [];
    IdleAt(m, es, k, w, l);
    ExecKeeps(m, es[..k], w, l);
  }

  // ---------------------------------------------------------------------------------------
  // Each kind of unrest is helped within a round
  // ---------------------------------------------------------------------------------------

  /** While a track that is not wanted is not closing, its reconcile puts a removal in flight. */
  lemma ReconcileStartsRemoval(m: Manager, mi: Manager, t: TrackID, at: Moment, w: World, l: Limits)
    requires Alike(m, mi) && KindsAgree(mi, w) && at.canReconcile
    requires t in m.subs && !m.subs[t].desired && m.subs[t].track.Some? && !m.subs[t].track.value.closing
    ensures QStep(mi, Rec(t, at), w, l).removals[t] > 0
  {
    RecWeighs(mi, t, at, w, l);
  }

  lemma UnwantedMeets(m: Manager, started: Manager, mj: Manager, mk: Manager, t: TrackID, w: World, l: Limits)
    requires t in m.subs && !m.subs[t].desired && m.subs[t].track.Some?
    requires Alike(m, started) && Alike(started, mj) && Alike(m, mk)
    requires !m.subs[t].track.value.closing ==> started.removals[t] > 0
    ensures Helps(mj, Rem(t), w, l) || Helps(mk, Cls(t), w, l)
  {
  }

  /** A track that is live though not desired: its reconcile starts a removal, which starts a close, which completes. */
  lemma UnwantedIsHelped(m: Manager, es: seq<Quiet>, t: TrackID, i: nat, j: nat, k: nat, w: World, l: Limits)
    requires Consistent(m, w, l)
    requires t in m.subs && !m.subs[t].desired && m.subs[t].track.Some?
    requires i < j < k < |es| && Able(es[i], t, 0) && es[j] == Rem(t) && es[k] == Cls(t)
    ensures !Idle(m, es, w, l)
  {
    if Idle(m, es, w, l) {
      var started := Exec(m, es[..i + 1], w, l);
      IdleFromStart(m, es, i, w, l);
      IdleFromStart(m, es, i + 1, w, l);
      IdleFromStart(m, es, j, w, l);
      IdleFromStart(m, es, k, w, l);
      IdleAt(m, es, i, w, l);
      if !m.subs[t].track.value.closing {
        ReconcileStartsRemoval(m, Exec(m, es[..i], w, l), t, es[i].at, w, l);
      }
      IdleAlike(m, es, i + 1, j, w, l);
      UnwantedMeets(m, started, Exec(m, es[..j], w, l), Exec(m, es[..k], w, l), t, w, l);
      assert false;
    }
  }

  /** A stale removal of a desired track runs, or its close completes. */
  lemma StaleIsHelped(m: Manager, es: seq<Quiet>, t: TrackID, j: nat, k: nat, w: World, l: Limits)
    requires Consistent(m, w, l)
    requires t in m.subs && m.subs[t].desired
        && (m.removals[t] > 0 || (m.subs[t].track.Some? && m.subs[t].track.value.closing))
    requires j < |es| && k < |es| && es[j] == Rem(t) && es[k] == Cls(t)
    ensures !Idle(m, es, w, l)
  {
    if Idle(m, es, w, l) {
      IdleFromStart(m, es, j, w, l);
      IdleFromStart(m, es, k, w, l);
      assert false;
    }
  }

  /** With no unwanted track live, whoever is desired and not live finds room. */
  lemma RoomForDesired(m: Manager, t: TrackID, w: World, l: Limits)
    requires Consistent(m, w, l)
    requires NothingUnwanted(m)
    requires t in m.subs && m.subs[t].desired && m.subs[t].track.None?
    ensures HasCapacity(m, w.kindOf(t), l)
  {
    var k := w.kindOf(t);
    assert LiveTracks(m.subs, k) <= Desired(m, w, k) - {t};
    SubsetIsSmaller(LiveTracks(m.subs, k), Desired(m, w, k) - {t});
  }

  predicate NothingUnwanted(m: Manager) {
    forall u :: u in m.subs && m.subs[u].track.Some? ==> m.subs[u].desired
  }

  lemma AlikeNothingUnwanted(m: Manager, m': Manager)
    requires Alike(m, m') && NothingUnwanted(m)
    ensures NothingUnwanted(m')
  {
    forall u | u in m'.subs && m'.subs[u].track.Some?
      ensures m'.subs[u].desired
    {
      assert u in m.subs && Weight(m', u) == Weight(m, u);
    }
  }

  lemma DesiredMeets(m: Manager, mi: Manager, t: TrackID, at: Moment, w: World, l: Limits)
    requires at.canReconcile && at.waited
    requires Alike(m, mi) && Consistent(mi, w, l) && NothingUnwanted(m)
    requires t in m.subs && m.subs[t].desired && m.subs[t].track.None? && m.removals[t] == 0
    ensures Helps(mi, Rec(t, at), w, l)
  {
    AlikeNothingUnwanted(m, mi);
    assert Weight(m, t) == 1;
    assert mi.subs[t].desired && mi.subs[t].track.None?;
    RoomForDesired(mi, t, w, l);
  }

  /** A desired track is subscribed by its first reconcile, if nothing unwanted is live. */
  lemma DesiredIsHelped(m: Manager, es: seq<Quiet>, t: TrackID, i: nat, w: World, l: Limits)
    requires Consistent(m, w, l) && NothingUnwanted(m)
    requires t in m.subs && m.subs[t].desired && m.subs[t].track.None? && m.removals[t] == 0
    requires i < |es| && Able(es[i], t, 0)
    ensures !Idle(m, es, w, l)
  {
    if Idle(m, es, w, l) {
      IdleFromStart(m, es, i, w, l);
      DesiredMeets(m, Exec(m, es[..i], w, l), t, es[i].at, w, l);
      assert false;
    }
  }

  /** An entry that is neither desired nor live, nor kept any more, goes with its next reconcile. */
  lemma LeftoverIsHelped(m: Manager, es: seq<Quiet>, t: TrackID, i: nat, w: World, l: Limits)
    requires Consistent(m, w, l)
    requires t in m.subs && !m.subs[t].desired && m.subs[t].track.None?
    requires i < |es| && Able(es[i], t, m.subs[t].keepUntil)
    ensures !Idle(m, es, w, l)
  {
    if Idle(m, es, w, l) {
      IdleFromStart(m, es, i, w, l);
      assert false;
    }
  }

  // ---------------------------------------------------------------------------------------
  // Main results
  // ---------------------------------------------------------------------------------------

  lemma Serving(es: seq<Quiet>, t: TrackID, ts: set<TrackID>, now: nat) returns (i: nat, j: nat, k: nat)
    requires FairRound(es, ts, now) && t in ts
    ensures ServedAt(es, t, now, i, j, k)
  {
    assert Served(es, t, now);
    i, j, k :| ServedAt(es, t, now, i, j, k);
  }

  lemma ServedHelps(m: Manager, es: seq<Quiet>, t: TrackID, i: nat, j: nat, k: nat, now: nat, w: World, l: Limits)
    requires Consistent(m, w, l) && t in m.subs && !AtRest(m, t, now)
    requires NothingUnwanted(m) || (m.subs[t].track.Some? && !m.subs[t].desired)
    requires ServedAt(es, t, now, i, j, k)
    ensures !Idle(m, es, w, l)
  {
    if !m.subs[t].desired {
      if m.subs[t].track.Some? {
        UnwantedIsHelped(m, es, t, i, j, k, w, l);
      } else {
        LeftoverIsHelped(m, es, t, i, w, l);
      }
    } else if m.removals[t] > 0 || m.subs[t].track.Some? {
      StaleIsHelped(m, es, t, j, k, w, l);
    } else {
      DesiredIsHelped(m, es, t, i, w, l);
    }
  }

  /** An entry not at rest, an unwanted live one if there is any. */
  lemma SomeUnrest(m: Manager, now: nat) returns (t: TrackID)
    requires !Fixpoint(m, now)
    ensures t in m.subs && !AtRest(m, t, now)
    ensures NothingUnwanted(m) || (m.subs[t].track.Some? && !m.subs[t].desired)
  {
    if NothingUnwanted(m) {
      t :| t in m.subs && !AtRest(m, t, now);
    } else {
      t :| t in m.subs && m.subs[t].track.Some? && !m.subs[t].desired;
    }
  }

  /** An entry not at rest, with the events that serve it. */
  lemma PickServed(m: Manager, es: seq<Quiet>, now: nat) returns (t: TrackID, i: nat, j: nat, k: nat)
    requires FairRound(es, m.subs.Keys, now) && !Fixpoint(m, now)
    ensures t in m.subs && !AtRest(m, t, now)
    ensures NothingUnwanted(m) || (m.subs[t].track.Some? && !m.subs[t].desired)
    ensures ServedAt(es, t, now, i, j, k)
  {
    t := SomeUnrest(m, now);
    i, j, k := Serving(es, t, m.subs.Keys, now);
  }

  lemma FairRoundHelps(m: Manager, es: seq<Quiet>, now: nat, w: World, l: Limits)
    requires Consistent(m, w, l) && FairRound(es, m.subs.Keys, now) && !Fixpoint(m, now)
    ensures !Idle(m, es, w, l)
  {
    var t, i, j, k := PickServed(m, es, now);
    ServedHelps(m, es, t, i, j, k, now, w, l);
  }

  /** Unless everything is at rest, a fair round brings the manager closer to it. */
  lemma FairRoundProgresses(m: Manager, es: seq<Quiet>, now: nat, w: World, l: Limits)
    requires Consistent(m, w, l)
    ensures FairRound(es, m.subs.Keys, now) && !Fixpoint(m, now) ==> Measure(Exec(m, es, w, l)) < Measure(m)
  {
    if FairRound(es, m.subs.Keys, now) && !Fixpoint(m, now) {
      FairRoundHelps(m, es, now, w, l);
      ExecMeasures(m, es, w, l);
    }
  }

  /** Rest is kept by every further step. */
  lemma RestIsKept(m: Manager, e: Quiet, now: nat, w: World, l: Limits)
    requires Consistent(m, w, l) && Fixpoint(m, now)
    ensures Fixpoint(QStep(m, e, w, l), now)
  {
    var m' := QStep(m, e, w, l);
    StepWeighs(m, e, w, l);
    forall t | t in m'.subs
      ensures AtRest(m', t, now)
    {
      assert t in m.subs && AtRest(m, t, now);
    }
  }

  lemma {:induction false} RestIsKeptForGood(m: Manager, es: seq<Quiet>, now: nat, w: World, l: Limits)
    requires Consistent(m, w, l) && Fixpoint(m, now)
    ensures Fixpoint(Exec(m, es, w, l), now)
  {
    if es != [] {
      ExecKeeps(m, es[..|es| - 1], w, l);
      RestIsKeptForGood(m, es[..|es| - 1], now, w, l);
      RestIsKept(Exec(m, es[..|es| - 1], w, l), es[|es| - 1], now, w, l);
    }
  }

  function ExecRounds(m: Manager, rounds: seq<seq<Quiet>>, w: World, l: Limits): Manager {
    if rounds == [] then m else Exec(ExecRounds(m, rounds[..|rounds| - 1], w, l), rounds[|rounds| - 1], w, l)
  }

  lemma FairForFewer(es: seq<Quiet>, ts: set<TrackID>, fewer: set<TrackID>, now: nat)
    requires FairRound(es, ts, now) && fewer <= ts
    ensures FairRound(es, fewer, now)
  {
  }

  /**
   After as many fair rounds as the measure counts, every entry left is desired and subscribed, or is only
   held by its keep-until window; whatever the order of reconciles, removals and closes within the rounds.
   */
  lemma {:induction false} Converges(m: Manager, rounds: seq<seq<Quiet>>, now: nat, w: World, l: Limits)
    requires Consistent(m, w, l)
    requires forall r :: r in rounds ==> FairRound(r, m.subs.Keys, now)
    ensures var m' := ExecRounds(m, rounds, w, l);
            && Consistent(m', w, l) && m'.subs.Keys <= m.subs.Keys
            && (Fixpoint(m', now) || Measure(m') + |rounds| <= Measure(m))
    ensures |rounds| > Measure(m) ==> Fixpoint(ExecRounds(m, rounds, w, l), now)
  {
    if rounds != [] {
      var init, r := rounds[..|rounds| - 1], rounds[|rounds| - 1];
      assert rounds == init + [r];
      Converges(m, init, now, w, l);
      var mid := ExecRounds(m, init, w, l);
      ExecKeeps(mid, r, w, l);
      if Fixpoint(mid, now) {
        RestIsKeptForGood(mid, r, now, w, l);
      } else {
        assert r in rounds && FairRound(r, m.subs.Keys, now);
        FairForFewer(r, m.subs.Keys, mid.subs.Keys, now);
        FairRoundProgresses(mid, r, now, w, l);
      }
    }
  }
}
