/**
 Subscriber settings of a track: updates are stored under a lock, and applied to the down track in two
 phases with the layers computed in between. The last settings win, however the applies interleave.
 */
module TrackSettings {
  import opened Prelude

  datatype Quality = Low | Medium | High | Off

  /** What the layers depend on. */
  datatype Wish = Wish(quality: Quality, width: nat, height: nat, fps: nat)

  datatype Settings = Settings(trackSids: seq<string>, disabled: bool, wish: Wish, priority: nat)

  /** Layers for a down track; the temporal one is invalid unless a frame rate is wished for. */
  datatype Layers = Layers(spatial: int, temporal: Option<int>)

  const INVALID_LAYER := -1

  datatype Config = Config(video: bool, adaptiveStream: bool, startAtDesiredQuality: bool)

  datatype DownTrack = DownTrack(muted: bool, maxSpatial: int, maxTemporal: int)

  /** `inFlight` are the applies between their two phases: their versions and the layers they computed. */
  datatype Track = Track(settings: Option<Settings>, version: nat, inFlight: map<nat, Layers>, down: DownTrack)

  /** How the track's codecs and dimensions turn a wish into layers at some moment. */
  type View = Wish -> Layers

  function LayersFor(c: Config, s: Settings, view: View): Layers {
    if !c.video then Layers(INVALID_LAYER, None)
    else Layers(view(s.wish).spatial, if s.wish.fps > 0 then view(s.wish).temporal else None)
  }

  // ---------------------------------------------------------------------------------------
  // Steps
  // ---------------------------------------------------------------------------------------

  function DefaultSettings(c: Config): Settings {
    Settings([], false, Wish(if c.startAtDesiredQuality || !c.adaptiveStream then High else Low, 0, 0, 0), 0)
  }

  /** Bound without an error. */
  function OnBind(c: Config, settings: Option<Settings>): Option<Settings> {
    if !c.video then settings
    else match settings
      case None => Some(DefaultSettings(c))
      case Some(s) => if c.adaptiveStream then Some(s.(disabled := false)) else settings
  }

  function BeginApply(c: Config, t: Track, view: View): Track {
    if t.settings.None? then t
    else t.(version := t.version + 1, inFlight := t.inFlight[t.version + 1 := LayersFor(c, t.settings.value, view)])
  }

  function Set(c: Config, d: DownTrack, disabled: bool, l: Layers): DownTrack {
    if disabled then d.(muted := true)
    else if !c.video then d.(muted := false)
    else DownTrack(false, l.spatial, if l.temporal.Some? then l.temporal.value else d.maxTemporal)
  }

  function FinishApply(c: Config, t: Track, version: nat): Track {
    if version !in t.inFlight then t
    else
      var t1 := t.(inFlight := t.inFlight - {version});
      if version != t.version || t.settings.None? then t1
      else t1.(down := Set(c, t.down, t.settings.value.disabled, t.inFlight[version]))
  }

  datatype Event = Update(settings: Settings) | Bind | Begin(view: View) | Finish(version: nat)

  function Step(c: Config, t: Track, e: Event): Track {
    match e
    case Update(s) => t.(settings := Some(s))
    case Bind => t.(settings := OnBind(c, t.settings))
    case Begin(view) => BeginApply(c, t, view)
    case Finish(v) => FinishApply(c, t, v)
  }

  function NewTrack(): Track { Track(None, 0, map[], DownTrack(false, INVALID_LAYER, INVALID_LAYER)) }

  function Run(c: Config, es: seq<Event>): Track {
    if es == [] then NewTrack() else Step(c, Run(c, es[..|es| - 1]), es[|es| - 1])
  }

  // ---------------------------------------------------------------------------------------
  // The track as the source has it
  // ---------------------------------------------------------------------------------------

  /** An apply after its first phase. */
  datatype Apply = Apply(version: nat, settings: Settings)

  class SubscribedTrack {
    const config: Config
    var settings: Option<Settings>
    var settingsVersion: nat
    var down: DownTrack
    /** Layers computed by applies that have not finished. */
    ghost var inFlight: map<nat, Layers>

    ghost function State(): Track
      reads this
    {
      Track(settings, settingsVersion, inFlight, down)
    }

    constructor (c: Config)
      ensures config == c && State() == NewTrack()
    {
      config := c;
      settings, settingsVersion := None, 0;
      down := DownTrack(false, INVALID_LAYER, INVALID_LAYER);
      inFlight := map[];
    }

    /** Whether to apply, and whether at once: a track that becomes visible is never debounced. */
    method UpdateSubscriberSettings(s: Settings, isImmediate: bool) returns (apply: bool, immediate: bool)
      modifies this
      ensures State() == Step(config, old(State()), Update(s))
      ensures apply <==> old(settings) != Some(s)
      ensures immediate <==>
          apply && (isImmediate || (!s.disabled && old(settings).Some? && old(settings).value.disabled))
    {
      if settings == Some(s) {
        return false, false;
      }
      var muted := settings.Some? && settings.value.disabled;
      immediate := isImmediate || (!s.disabled && s.disabled != muted);
      settings := Some(s);
      apply := true;
    }

    method Bound(failed: bool) returns (apply: bool)
      modifies this
      ensures State() == if failed then old(State()) else Step(config, old(State()), Bind)
      ensures !apply ==> settings == old(settings)
      ensures apply && old(settings).Some? ==>
                var s := old(settings).value;
                settings == Some(s.(disabled := s.disabled && !config.adaptiveStream))
      ensures apply && old(settings).None? ==>
                var q := if config.adaptiveStream && !config.startAtDesiredQuality then Low else High;
                settings == Some(Settings([], false, Wish(q, 0, 0, 0), 0))
      ensures apply <==> !failed && config.video
    {
      apply := !failed && config.video;
      if apply {
        if settings.Some? {
          if config.adaptiveStream {
            settings := Some(settings.value.(disabled := false));
          }
        } else if config.startAtDesiredQuality {
          settings := Some(Settings([], false, Wish(High, 0, 0, 0), 0));
        } else if config.adaptiveStream {
          settings := Some(Settings([], false, Wish(Low, 0, 0, 0), 0));
        } else {
          settings := Some(Settings([], false, Wish(High, 0, 0, 0), 0));
        }
      }
    }

    /** The first locked phase; the layers are then computed from the snapshot it returns. */
    method ApplySnapshot(ghost view: View) returns (a: Option<Apply>)
      modifies this
      ensures State() == Step(config, old(State()), Begin(view))
      ensures a == if settings.None? then None else Some(Apply(settingsVersion, settings.value))
      ensures settings == old(settings) && settingsVersion == old(settingsVersion) + if settings.Some? then 1 else 0
    {
      if settings.None? {
        return None;
      }
      settingsVersion := settingsVersion + 1;
      a := Some(Apply(settingsVersion, settings.value));
      inFlight := inFlight[settingsVersion := LayersFor(config, settings.value, view)];
    }

    method ComputeLayers(a: Apply, view: View) returns (l: Layers)
      ensures l == LayersFor(config, a.settings, view)
      ensures !config.video ==> l == Layers(-1, None)
      ensures config.video ==> l.spatial == view(a.settings.wish).spatial
      ensures config.video ==> l.temporal == if a.settings.wish.fps > 0 then view(a.settings.wish).temporal else None
    {
      l := Layers(INVALID_LAYER, None);
      if config.video {
        var wished := view(a.settings.wish);
        l := Layers(wished.spatial, None);
        if a.settings.wish.fps > 0 {
          l := l.(temporal := wished.temporal);
        }
      }
    }

    /** The second locked phase. */
    method ApplyLayers(version: nat, l: Layers)
      requires settings.Some? && version in inFlight && inFlight[version] == l
      modifies this
      ensures State() == Step(config, old(State()), Finish(version))
      ensures version != settingsVersion ==> down == old(down)
      ensures version == settingsVersion ==>
                && down.muted == settings.value.disabled
                && down.maxSpatial == (if config.video && !down.muted then l.spatial else old(down).maxSpatial)
                && down.maxTemporal == (if config.video && !down.muted && l.temporal.Some? then l.temporal.value
                                        else old(down).maxTemporal)
    {
      inFlight := inFlight - {version};
      if version != settingsVersion {
        return;
      }
      if settings.value.disabled {
        down := down.(muted := true);
        return;
      } else {
        down := down.(muted := false);
      }
      if config.video {
        down := down.(maxSpatial := l.spatial);
        if l.temporal.Some? {
          down := down.(maxTemporal := l.temporal.value);
        }
      }
    }
  }

  // ---------------------------------------------------------------------------------------
  // The last settings win
  // ---------------------------------------------------------------------------------------

  /** What an apply computes its layers from. */
  datatype Begun = Begun(settings: Settings, view: View)

  /** The latest apply. */
  function Latest(c: Config, es: seq<Event>): Option<Begun> {
    if es == [] then None
    else
      var t := Run(c, es[..|es| - 1]);
      match es[|es| - 1]
      case Begin(view) => if t.settings.Some? then Some(Begun(t.settings.value, view)) else Latest(c, es[..|es| - 1])
      case _ => Latest(c, es[..|es| - 1])
  }

  /** An apply has begun since the settings last changed. */
  predicate Applied(c: Config, es: seq<Event>) {
    es != [] &&
    var t := Run(c, es[..|es| - 1]);
    match es[|es| - 1]
    case Begin(_) => t.settings.Some?
    case _ => Applied(c, es[..|es| - 1]) && Run(c, es).settings == t.settings
  }

  /** The down track is as the settings want it. */
  predicate Shows(c: Config, d: DownTrack, s: Settings, l: Layers) {
    && d.muted == s.disabled
    && (c.video && !s.disabled ==>
        d.maxSpatial == l.spatial && (l.temporal.Some? ==> d.maxTemporal == l.temporal.value))
  }

  /** The latest apply has its layers with it, or has left them on the down track. */
  ghost predicate Inv(c: Config, es: seq<Event>) {
    var t, l := Run(c, es), Latest(c, es);
    && (forall v :: v in t.inFlight ==> v <= t.version)
    && (t.version in t.inFlight ==> l.Some? && t.inFlight[t.version] == LayersFor(c, l.value.settings, l.value.view))
    && (Applied(c, es) ==>
          && t.settings.Some? && l.Some? && l.value.settings == t.settings.value
          && (t.version !in t.inFlight ==>
              Shows(c, t.down, t.settings.value, LayersFor(c, t.settings.value, l.value.view))))
  }

  lemma {:induction false} RunKeepsInv(c: Config, es: seq<Event>)
    ensures Inv(c, es)
  {
    if es != [] {
      RunKeepsInv(c, es[..|es| - 1]);
    }
  }

  /**
   Once the settings have been followed by an apply and no apply is under way, the mute flag is that of the
   settings, and an unmuted video track has the layers of these very settings, seen as the latest apply saw them.
   */
  lemma LastWriteWins(c: Config, es: seq<Event>)
    requires Applied(c, es) && Run(c, es).inFlight == map[]
    ensures Run(c, es).settings.Some? && Latest(c, es).Some?
    ensures var s := Run(c, es).settings.value; Shows(c, Run(c, es).down, s, LayersFor(c, s, Latest(c, es).value.view))
  {
    RunKeepsInv(c, es);
  }

  function Updates(es: seq<Event>): seq<Settings> {
    if es == [] then []
    else Updates(es[..|es| - 1]) + match es[|es| - 1] case Update(s) => [s] case _ => []
  }

  /** The settings are the last ones given, but for a disabled flag that binding an adaptive stream has cleared. */
  lemma {:induction false} SettingsAreLastGiven(c: Config, es: seq<Event>)
    ensures var t, us := Run(c, es), Updates(es);
            us != [] ==> && t.settings.Some?
                         && t.settings.value.(disabled := us[|us| - 1].disabled) == us[|us| - 1]
                         && (t.settings.value == us[|us| - 1] || (c.video && c.adaptiveStream && Bind in es))
  {
    if es != [] {
      SettingsAreLastGiven(c, es[..|es| - 1]);
      assert es == es[..|es| - 1] + [es[|es| - 1]];
    }
  }

  // ---------------------------------------------------------------------------------------
  // The temporal layer
  // ---------------------------------------------------------------------------------------

  /** The layers of the applies that took effect on an unmuted video track, in order. */
  function Effective(c: Config, es: seq<Event>): seq<Layers> {
    if es == [] then []
    else
      var t, before := Run(c, es[..|es| - 1]), Effective(c, es[..|es| - 1]);
      match es[|es| - 1]
      case Finish(v) =>
        if c.video && v in t.inFlight && v == t.version && t.settings.Some? && !t.settings.value.disabled
        then before + [t.inFlight[v]] else before
      case _ => before
  }

  /** The temporal layer computed last, if one ever was. */
  function LastTemporal(ls: seq<Layers>): int {
    if ls == [] then INVALID_LAYER
    else if ls[|ls| - 1].temporal.Some? then ls[|ls| - 1].temporal.value
    else LastTemporal(ls[..|ls| - 1])
  }

  function LastSpatial(ls: seq<Layers>): int { if ls == [] then INVALID_LAYER else ls[|ls| - 1].spatial }

  /**
   Over every run the spatial layer of the down track is that of the last apply that took effect unmuted, but
   its temporal layer is that of the last such apply that computed one.
   */
  lemma {:induction false} LayersAreLastEffective(c: Config, es: seq<Event>)
    ensures Run(c, es).down.maxSpatial == LastSpatial(Effective(c, es))
    ensures Run(c, es).down.maxTemporal == LastTemporal(Effective(c, es))
  {
    if es != [] {
      var before := Effective(c, es[..|es| - 1]);
      LayersAreLastEffective(c, es[..|es| - 1]);
      if Effective(c, es) != before {
        var ls := Effective(c, es);
        assert ls[..|ls| - 1] == before;
      }
    }
  }

  /** The temporal layer settings ask for; none at all if they wish for no frame rate. */
  function WantedTemporal(l: Layers): int { if l.temporal.Some? then l.temporal.value else INVALID_LAYER }

  /**
   When everything is applied to an unmuted video track, its temporal layer is that of the latest settings if and
   only if the latest apply computed one, or none had ever been computed (or an invalid one had).
   */
  lemma TemporalIsLatestIff(c: Config, es: seq<Event>)
    requires Applied(c, es) && Run(c, es).inFlight == map[]
    requires c.video && Run(c, es).settings.Some? && !Run(c, es).settings.value.disabled && Latest(c, es).Some?
    ensures var l := LayersFor(c, Run(c, es).settings.value, Latest(c, es).value.view);
            Run(c, es).down.maxTemporal == WantedTemporal(l)
            <==> l.temporal.Some? || LastTemporal(Effective(c, es)) == INVALID_LAYER
  {
    LastWriteWins(c, es);
    LayersAreLastEffective(c, es);
  }

  lemma RunThen(c: Config, es: seq<Event>, e: Event)
    ensures Run(c, es + [e]) == Step(c, Run(c, es), e)
  {
    assert (es + [e])[..|es|] == es;
  }

  /** Settings without a frame rate leave the temporal layer of the settings before them. */
  lemma TemporalLayerStays(c: Config, view: View, before: Settings, after: Settings)
    requires c.video && !before.disabled && before.wish.fps > 0 && view(before.wish).temporal.Some?
    requires !after.disabled && after.wish.fps == 0
    ensures var es := [] + [Update(before)] + [Begin(view)] + [Finish(1)] + [Update(after)] + [Begin(view)]
        + [Finish(2)];
            Run(c, es).down == DownTrack(false, view(after.wish).spatial, view(before.wish).temporal.value)
  {
    var e1 := [] + [Update(before)];
    RunThen(c, [], Update(before));
    RunThen(c, e1, Begin(view));
    RunThen(c, e1 + [Begin(view)], Finish(1));
    var e2 := e1 + [Begin(view)] + [Finish(1)] + [Update(after)];
    RunThen(c, e1 + [Begin(view)] + [Finish(1)], Update(after));
    RunThen(c, e2, Begin(view));
    RunThen(c, e2 + [Begin(view)], Finish(2));
  }
}
