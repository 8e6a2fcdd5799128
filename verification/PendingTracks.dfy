/**
 Tracks a participant has asked to publish and whose media has not arrived: bounded, queued a few under one
 client id, and released with all their client ids when they time out.
 */
module PendingTracks {
  import opened Prelude

  const MAX_PENDING_TRACKS := 20
  const MAX_PENDING_QUEUED_TRACKS := 3
  const MAX_RELEASED_TRACKS := 32

  type Cid = string
  type Sid = string

  datatype Kind = Audio | Video | Data

  datatype Codec = Codec(mime: string, cid: Cid, sdpCid: Cid)

  datatype TrackInfo = TrackInfo(sid: Sid, kind: Kind, codecs: seq<Codec>, muted: bool)

  datatype Entry = Entry(infos: seq<TrackInfo>, queued: bool, migrated: bool)

  type Pending = map<Cid, Entry>

  /** `released` holds a group of client ids for each track released, oldest first. */
  datatype Tracks = Tracks(pending: Pending, released: seq<set<Cid>>)

  /** A simulcast codec of a request, with the mime type the server settles on. */
  datatype Simulcast = Simulcast(mime: string, cid: Cid)

  datatype Request = Request(sid: Sid, cid: Cid, kind: Kind, simulcast: seq<Simulcast>, muted: bool)

  // ---------------------------------------------------------------------------------------
  // Releasing
  // ---------------------------------------------------------------------------------------

  predicate HasSid(infos: seq<TrackInfo>, sid: Sid) { exists ti :: ti in infos && ti.sid == sid }

  function Remaining(infos: seq<TrackInfo>, sid: Sid): seq<TrackInfo> {
    if infos == [] then []
    else
      var last := infos[|infos| - 1];
      Remaining(infos[..|infos| - 1], sid) + if last.sid == sid then [] else [last]
  }

  /** The entries without this track, and without those that held nothing else. */
  function Without(pending: Pending, sid: Sid): Pending {
    map cid | cid in pending && Remaining(pending[cid].infos, sid) != [] ::
        pending[cid].(infos := Remaining(pending[cid].infos, sid))
  }

  /** The ids of a codec, in either role. */
  function CodecCids(codecs: seq<Codec>): set<Cid> {
    (set c | c in codecs :: c.cid) + (set c | c in codecs :: c.sdpCid)
  }

  function InfoCids(infos: seq<TrackInfo>, sid: Sid): set<Cid> {
    if infos == [] then {}
    else
      var last := infos[|infos| - 1];
      InfoCids(infos[..|infos| - 1], sid) + if last.sid == sid then CodecCids(last.codecs) else {}
  }

  /** Every client id this track goes by. */
  function GroupOf(pending: Pending, sid: Sid): set<Cid> {
    (set cid | cid in pending && HasSid(pending[cid].infos, sid)) +
    (set cid, c | cid in pending && c in InfoCids(pending[cid].infos, sid) :: c)
    - {""}
  }

  /** The entry under this key holds the track, and the id is that key or a codec's of the track, in either role. */
  ghost predicate EntryGoesBy(e: Entry, key: Cid, sid: Sid, cid: Cid) {
    exists ti :: ti in e.infos && ti.sid == sid &&
        (cid == key || exists c :: c in ti.codecs && (c.cid == cid || c.sdpCid == cid))
  }

  /** The track goes by this client id. */
  ghost predicate GoesBy(pending: Pending, sid: Sid, cid: Cid) {
    exists key :: key in pending && EntryGoesBy(pending[key], key, sid, cid)
  }

  /** Exactly the ids the track goes by, but for the empty one. */
  ghost predicate AreIdsOf(g: set<Cid>, pending: Pending, sid: Sid) {
    forall cid :: cid in g <==> cid != "" && GoesBy(pending, sid, cid)
  }

  lemma {:induction false} InfoCidsAre(infos: seq<TrackInfo>, sid: Sid, cid: Cid)
    ensures cid in InfoCids(infos, sid) <==>
            exists ti :: ti in infos && ti.sid == sid && exists c :: c in ti.codecs && (c.cid == cid || c.sdpCid == cid)
  {
    if infos != [] {
      InfoCidsAre(infos[..|infos| - 1], sid, cid);
      assert infos == infos[..|infos| - 1] + [infos[|infos| - 1]];
    }
  }

  lemma GroupOfAreIds(pending: Pending, sid: Sid)
    ensures AreIdsOf(GroupOf(pending, sid), pending, sid)
    ensures Known(pending, sid) <==> exists cid :: GoesBy(pending, sid, cid)
  {
    forall cid
      ensures cid in GroupOf(pending, sid) <==> cid != "" && GoesBy(pending, sid, cid)
    {
      forall key | key in pending
        ensures EntryGoesBy(pending[key], key, sid, cid) <==>
                (cid == key && HasSid(pending[key].infos, sid)) || cid in InfoCids(pending[key].infos, sid)
      {
        InfoCidsAre(pending[key].infos, sid, cid);
      }
    }
    if key :| key in pending && HasSid(pending[key].infos, sid) {
      assert EntryGoesBy(pending[key], key, sid, key);
      assert GoesBy(pending, sid, key);
    }
  }

  function AddGroup(released: seq<set<Cid>>, g: set<Cid>): seq<set<Cid>> {
    if g == {} then released
    else if |released| >= MAX_RELEASED_TRACKS then (released + [g])[1..]
    else released + [g]
  }

  predicate Known(pending: Pending, sid: Sid) { exists cid :: cid in pending && HasSid(pending[cid].infos, sid) }

  function Release(t: Tracks, sid: Sid): Tracks {
    if Known(t.pending, sid) then Tracks(Without(t.pending, sid), AddGroup(t.released, GroupOf(t.pending, sid))) else t
  }

  function ReleaseAll(t: Tracks, sids: seq<Sid>): Tracks {
    if sids == [] then t else Release(ReleaseAll(t, sids[..|sids| - 1]), sids[|sids| - 1])
  }

  predicate IsReleased(released: seq<set<Cid>>, cid: Cid) { exists g :: g in released && cid in g }

  predicate Touches(req: Request, g: set<Cid>) {
    req.cid in g || exists s :: s in req.simulcast && s.cid != "" && s.cid in g
  }

  function ClearGroups(released: seq<set<Cid>>, req: Request): seq<set<Cid>> {
    if released == [] then []
    else
      var last := released[|released| - 1];
      ClearGroups(released[..|released| - 1], req) + if Touches(req, last) then [] else [last]
  }

  // ---------------------------------------------------------------------------------------
  // Adding
  // ---------------------------------------------------------------------------------------

  predicate HasMime(codecs: seq<Codec>, mime: string) { exists c :: c in codecs && c.mime == mime }

  /** The first simulcast codec of each mime type. */
  function FirstOfEach(simulcast: seq<Simulcast>): seq<Codec> {
    if simulcast == [] then []
    else
      var before, last := FirstOfEach(simulcast[..|simulcast| - 1]), simulcast[|simulcast| - 1];
      before + if last.mime == "" || HasMime(before, last.mime) then [] else [Codec(last.mime, last.cid, "")]
  }

  function CodecsFor(req: Request): seq<Codec> {
    if req.simulcast == [] then [Codec("", req.cid, "")] else FirstOfEach(req.simulcast)
  }

  /** A track asked for again under a pending client id keeps its id. */
  function SidFor(pending: Pending, cid: Cid, generated: Sid): Sid {
    if cid in pending && pending[cid].infos != [] && pending[cid].infos[0].sid != ""
    then pending[cid].infos[0].sid
    else generated
  }

  function NewInfo(pending: Pending, req: Request, generated: Sid): TrackInfo {
    TrackInfo(SidFor(pending, req.cid, generated), req.kind, CodecsFor(req), req.muted)
  }

  /**
   What a request meets: the id generated, whether its client id is published, and what the supervisor knows
   to have timed out.
   */
  datatype AddEnv = AddEnv(generated: Sid, published: bool, timedOut: seq<Sid>)

  datatype Verdict = Existing | Rejected | Queued | Added(info: TrackInfo)

  function MakeRoom(t: Tracks, env: AddEnv): Tracks {
    if |t.pending| >= MAX_PENDING_TRACKS then ReleaseAll(t, env.timedOut) else t
  }

  /** Whether the request gets as far as to clear what was released. */
  predicate Admitted(t: Tracks, req: Request, env: AddEnv) {
    req.sid == "" && |MakeRoom(t, env).pending| < MAX_PENDING_TRACKS
  }

  function Insert(pending: Pending, req: Request, env: AddEnv): (Pending, Verdict) {
    var ti := NewInfo(pending, req, env.generated);
    if req.cid in pending then
      var e := pending[req.cid];
      if |e.infos| >= MAX_PENDING_QUEUED_TRACKS then (pending, Rejected)
      else (pending[req.cid := e.(infos := e.infos + [ti])], Queued)
    else (pending[req.cid := Entry([ti], env.published, false)], if env.published then Queued else Added(ti))
  }

  function AddTrack(t: Tracks, req: Request, env: AddEnv): (Tracks, Verdict) {
    if req.sid != "" then (t, Existing)
    else
      var t1 := MakeRoom(t, env);
      if |t1.pending| >= MAX_PENDING_TRACKS then (t1, Rejected)
      else
        var (pending, v) := Insert(t1.pending, req, env);
        (Tracks(pending, ClearGroups(t1.released, req)), v)
  }

  // ---------------------------------------------------------------------------------------
  // Finding
  // ---------------------------------------------------------------------------------------

  predicate FirstHasCid(e: Entry, cid: Cid) { e.infos != [] && exists c :: c in e.infos[0].codecs && c.cid == cid }

  predicate FirstIsOf(e: Entry, kind: Kind) { e.infos != [] && e.infos[0].kind == kind }

  function ByCodec(pending: Pending, clientId: Cid): set<Cid> {
    set cid | cid in pending && FirstHasCid(pending[cid], clientId)
  }

  function ByKind(pending: Pending, kind: Kind): set<Cid> { set cid | cid in pending && FirstIsOf(pending[cid], kind) }

  /** The entries a client id may stand for: its own, else one with a codec of that id, else one of the kind. */
  function Candidates(t: Tracks, clientId: Cid, kind: Kind): set<Cid> {
    if IsReleased(t.released, clientId) then {}
    else if clientId in t.pending then {clientId}
    else if ByCodec(t.pending, clientId) != {} then ByCodec(t.pending, clientId)
    else ByKind(t.pending, kind)
  }

  /**
   The client id stands for this entry: it was not released, and the entry is its own; or it has none and the
   first track of the entry has a codec of that id; or there is none of these and the first track is of the kind.
   */
  ghost predicate Stands(t: Tracks, clientId: Cid, kind: Kind, cid: Cid) {
    && cid in t.pending && (forall k :: 0 <= k < |t.released| ==> clientId !in t.released[k])
    && (|| cid == clientId
        || (clientId !in t.pending && HeadHasCodec(t.pending[cid], clientId))
        || (&& clientId !in t.pending
            && (forall other :: other in t.pending ==> !HeadHasCodec(t.pending[other], clientId))
            && t.pending[cid].infos != [] && t.pending[cid].infos[0].kind == kind))
  }

  ghost predicate HeadHasCodec(e: Entry, cid: Cid) {
    e.infos != [] && exists k :: 0 <= k < |e.infos[0].codecs| && e.infos[0].codecs[k].cid == cid
  }

  lemma CandidatesStand(t: Tracks, clientId: Cid, kind: Kind)
    ensures forall cid :: cid in Candidates(t, clientId, kind) <==> Stands(t, clientId, kind, cid)
  {
    assert forall e, cid :: FirstHasCid(e, cid) <==> HeadHasCodec(e, cid);
    assert IsReleased(t.released, clientId) <==> exists k :: 0 <= k < |t.released| && clientId in t.released[k];
    forall cid
      ensures cid in Candidates(t, clientId, kind) <==> Stands(t, clientId, kind, cid)
    {
      if clientId !in t.pending && ByCodec(t.pending, clientId) != {} {
        var other :| other in ByCodec(t.pending, clientId);
        assert HeadHasCodec(t.pending[other], clientId);
      }
      assert forall other :: other in t.pending && HeadHasCodec(t.pending[other], clientId) ==>
                other in ByCodec(t.pending, clientId);
    }
  }

  /** The first track of the entry is published; the next one waits for it to be unpublished. */
  function Publish(pending: Pending, cid: Cid): Pending
    requires cid in pending && pending[cid].infos != []
  {
    var rest := pending[cid].infos[1..];
    if rest == [] then pending - {cid} else pending[cid := pending[cid].(infos := rest, queued := true)]
  }

  function NameSdpCid(pending: Pending, cid: Cid, sdpCid: Cid): Pending
    requires cid in pending && pending[cid].infos != [] && pending[cid].infos[0].codecs != []
  {
    var first := pending[cid].infos[0];
    var named := first.(codecs := first.codecs[0 := first.codecs[0].(sdpCid := sdpCid)]);
    pending[cid := pending[cid].(infos := pending[cid].infos[0 := named])]
  }

  function MuteInfos(infos: seq<TrackInfo>, sid: Sid, muted: bool): seq<TrackInfo> {
    seq(|infos|, k requires 0 <= k < |infos| => if infos[k].sid == sid then infos[k].(muted := muted) else infos[k])
  }

  // ---------------------------------------------------------------------------------------
  // The participant as the source has it
  // ---------------------------------------------------------------------------------------

  /** What the entries walked over so far leave. */
  ghost predicate WalkLeaves(was: Pending, rest: set<Cid>, sid: Sid, pending: Pending) {
    && (forall cid :: cid in pending <==> cid in was && (cid in rest || Remaining(was[cid].infos, sid) != []))
    && (forall cid :: cid in pending ==>
          pending[cid] == if cid in rest then was[cid] else was[cid].(infos := Remaining(was[cid].infos, sid)))
  }

  predicate NamesIn(e: Entry, cid: Cid, sid: Sid, c: Cid) {
    (c == cid && HasSid(e.infos, sid)) || c in InfoCids(e.infos, sid)
  }

  /** The client ids found on the way. */
  ghost predicate WalkFinds(was: Pending, rest: set<Cid>, sid: Sid, cids: set<Cid>) {
    forall c :: c in cids <==> exists cid :: cid in was && cid !in rest && NamesIn(was[cid], cid, sid, c)
  }

  ghost predicate WalkKnows(was: Pending, rest: set<Cid>, sid: Sid, found: bool) {
    found <==> exists cid :: cid in was && cid !in rest && HasSid(was[cid].infos, sid)
  }

  lemma SplitNext(infos: seq<TrackInfo>, k: nat, sid: Sid)
    requires k < |infos|
    ensures Remaining(infos[..k + 1], sid)
            == Remaining(infos[..k], sid) + if infos[k].sid == sid then [] else [infos[k]]
    ensures InfoCids(infos[..k + 1], sid)
            == InfoCids(infos[..k], sid) + if infos[k].sid == sid then CodecCids(infos[k].codecs) else {}
    ensures HasSid(infos[..k + 1], sid) == (HasSid(infos[..k], sid) || infos[k].sid == sid)
  {
    assert infos[..k + 1][..k] == infos[..k];
    assert infos[..k + 1] == infos[..k] + [infos[k]];
  }

  method SplitInfos(infos: seq<TrackInfo>, sid: Sid) returns (remaining: seq<TrackInfo>, cids: set<Cid>, found: bool)
    ensures remaining == Remaining(infos, sid) && cids == InfoCids(infos, sid) && found == HasSid(infos, sid)
  {
    remaining, cids, found := [], {}, false;
    for k := 0 to |infos|
      invariant remaining == Remaining(infos[..k], sid) && cids == InfoCids(infos[..k], sid)
          && found == HasSid(infos[..k], sid)
    {
      SplitNext(infos, k, sid);
      if infos[k].sid == sid {
        found := true;
        cids := cids + CodecCids(infos[k].codecs);
      } else {
        remaining := remaining + [infos[k]];
      }
    }
    assert infos[..|infos|] == infos;
  }

  lemma WalkFindsMore(was: Pending, rest: set<Cid>, sid: Sid, cids: set<Cid>, cid: Cid)
    requires WalkFinds(was, rest, sid, cids) && cid in rest && rest <= was.Keys
    ensures WalkFinds(was, rest - {cid}, sid,
                      cids + InfoCids(was[cid].infos, sid) + if HasSid(was[cid].infos, sid) then {cid} else {})
  {
    var cids' := cids + InfoCids(was[cid].infos, sid) + if HasSid(was[cid].infos, sid) then {cid} else {};
    forall c
      ensures c in cids' <==> exists x :: x in was && x !in rest - {cid} && NamesIn(was[x], x, sid, c)
    {
      assert c in cids' <==> c in cids || NamesIn(was[cid], cid, sid, c);
      if c in cids {
        var x :| x in was && x !in rest && NamesIn(was[x], x, sid, c);
        assert x !in rest - {cid};
      }
    }
  }

  lemma WalkLeavesOne(was: Pending, rest: set<Cid>, sid: Sid, pending: Pending, cid: Cid)
    requires WalkLeaves(was, rest, sid, pending) && cid in rest && rest <= was.Keys
    ensures var remaining := Remaining(was[cid].infos, sid);
            WalkLeaves(was, rest - {cid}, sid,
                       if remaining == [] then pending - {cid} else pending[cid := was[cid].(infos := remaining)])
  {
  }

  /** The walk of releasePendingTrackLocked over the entries, in whatever order. */
  method Walk(was: Pending, sid: Sid) returns (pending: Pending, cids: set<Cid>, found: bool)
    ensures pending == Without(was, sid) && cids - {""} == GroupOf(was, sid) && found == Known(was, sid)
    ensures AreIdsOf(cids - {""}, was, sid) && (found <==> exists cid :: GoesBy(was, sid, cid))
  {
    pending, cids, found := was, {}, false;
    var rest := was.Keys;
    while rest != {}
      invariant rest <= was.Keys && WalkLeaves(was, rest, sid, pending)
      invariant WalkFinds(was, rest, sid, cids)
      invariant WalkKnows(was, rest, sid, found)
    {
      var cid :| cid in rest;
      var remaining, codecCids, here := SplitInfos(was[cid].infos, sid);
      WalkLeavesOne(was, rest, sid, pending, cid);
      WalkFindsMore(was, rest, sid, cids, cid);
      if remaining == [] {
        pending := pending - {cid};
      } else {
        pending := pending[cid := was[cid].(infos := remaining)];
      }
      cids := cids + codecCids + if here then {cid} else {};
      found := found || here;
      rest := rest - {cid};
    }
    assert pending == Without(was, sid);
    WalkedAll(was, sid, cids);
    GroupOfAreIds(was, sid);
  }

  lemma WalkedAll(was: Pending, sid: Sid, cids: set<Cid>)
    requires WalkFinds(was, {}, sid, cids)
    ensures cids - {""} == GroupOf(was, sid)
  {
    forall c
      ensures c in cids - {""} <==> c in GroupOf(was, sid)
    {
    }
  }

  /** The entry with its tracks of other ids only, in their order. */
  ghost predicate LosesOnly(was: Entry, e: Entry, sid: Sid) {
    && e.queued == was.queued && e.migrated == was.migrated
    && ((forall ti :: ti in was.infos ==> ti.sid != sid) ==> e == was)
    && ((exists ti :: ti in was.infos && ti.sid == sid) ==> e.infos == Remaining(was.infos, sid))
    && (forall ti :: ti in e.infos <==> ti in was.infos && ti.sid != sid)
  }

  lemma {:induction false} RemainingIsPart(infos: seq<TrackInfo>, sid: Sid)
    ensures |Remaining(infos, sid)| <= |infos|
    ensures forall ti :: ti in Remaining(infos, sid) <==> ti in infos && ti.sid != sid
  {
    if infos != [] {
      RemainingIsPart(infos[..|infos| - 1], sid);
      assert infos == infos[..|infos| - 1] + [infos[|infos| - 1]];
    }
  }

  lemma {:induction false} AllRemain(infos: seq<TrackInfo>, sid: Sid)
    requires forall k :: 0 <= k < |infos| ==> infos[k].sid != sid
    ensures Remaining(infos, sid) == infos
  {
    if infos != [] {
      var init, last := infos[..|infos| - 1], infos[|infos| - 1];
      AllRemain(init, sid);
      assert last.sid != sid && infos == init + [last];
    }
  }

  lemma WithoutLosesOnly(pending: Pending, sid: Sid)
    ensures forall cid :: cid in Without(pending, sid) <==>
                cid in pending && exists ti :: ti in pending[cid].infos && ti.sid != sid
    ensures forall cid :: cid in Without(pending, sid) ==> LosesOnly(pending[cid], Without(pending, sid)[cid], sid)
  {
    forall cid | cid in pending
      ensures Remaining(pending[cid].infos, sid) != [] <==> exists ti :: ti in pending[cid].infos && ti.sid != sid
      ensures LosesOnly(pending[cid], pending[cid].(infos := Remaining(pending[cid].infos, sid)), sid)
    {
      var infos := pending[cid].infos;
      RemainingIsPart(infos, sid);
      if forall ti :: ti in infos ==> ti.sid != sid {
        AllRemain(infos, sid);
      }
      if Remaining(infos, sid) != [] {
        assert Remaining(infos, sid)[0] in Remaining(infos, sid);
      }
    }
  }

  /** The ids are the newest group, and of more than 32 groups the oldest is gone. */
  ghost predicate Remembers(was: seq<set<Cid>>, released: seq<set<Cid>>, g: set<Cid>) {
    if g == {} then released == was
    else if |was| < MAX_RELEASED_TRACKS then released == was + [g]
    else released == was[1..] + [g]
  }

  lemma RemembersGroup(was: seq<set<Cid>>, g: set<Cid>)
    ensures Remembers(was, AddGroup(was, g), g)
  {
  }

  /**
   What a release does: nothing if the track goes by no id; else the track is gone from every entry, entries that
   held nothing else are gone, and all ids it went by are the newest group.
   */
  ghost predicate Forgotten(t: Tracks, t': Tracks, sid: Sid, g: set<Cid>) {
    && AreIdsOf(g, t.pending, sid)
    && if !exists cid :: GoesBy(t.pending, sid, cid) then t' == t
       else
         && Remembers(t.released, t'.released, g)
         && (forall cid :: cid in t'.pending <==>
               cid in t.pending && exists ti :: ti in t.pending[cid].infos && ti.sid != sid)
         && (forall cid :: cid in t'.pending ==> LosesOnly(t.pending[cid], t'.pending[cid], sid))
  }

  lemma ReleaseForgets(t: Tracks, sid: Sid, g: set<Cid>)
    requires AreIdsOf(g, t.pending, sid)
    ensures Forgotten(t, Release(t, sid), sid, g)
  {
    GroupOfAreIds(t.pending, sid);
    assert g == GroupOf(t.pending, sid);
    WithoutLosesOnly(t.pending, sid);
    RemembersGroup(t.released, g);
  }

  /** The codecs of a request, the first of each mime type. */
  method PopulateCodecs(req: Request) returns (codecs: seq<Codec>)
    ensures codecs == CodecsFor(req)
    ensures req.simulcast == [] ==> codecs == [Codec("", req.cid, "")]
    ensures req.simulcast != [] ==> exists at :: FirstsAt(codecs, req.simulcast, at)
  {
    ghost var at := CodecsAreFirsts(req.simulcast);
    if req.simulcast == [] {
      return [Codec("", req.cid, "")];
    }
    codecs := [];
    var seen: set<string> := {};
    for k := 0 to |req.simulcast|
      invariant codecs == FirstOfEach(req.simulcast[..k])
      invariant forall m :: m in seen <==> HasMime(codecs, m)
    {
      var s := req.simulcast[k];
      assert req.simulcast[..k + 1][..k] == req.simulcast[..k];
      if s.mime in seen || s.mime == "" {
        continue;
      }
      MimeAdded(codecs, Codec(s.mime, s.cid, ""));
      seen := seen + {s.mime};
      codecs := codecs + [Codec(s.mime, s.cid, "")];
    }
    assert req.simulcast[..|req.simulcast|] == req.simulcast;
  }

  /** The k-th simulcast codec is the first of its mime type, and has one. */
  ghost predicate IsFirst(simulcast: seq<Simulcast>, k: nat)
    requires k < |simulcast|
  {
    simulcast[k].mime != "" && forall j :: 0 <= j < k ==> simulcast[j].mime != simulcast[k].mime
  }

  /** Exactly the first simulcast codecs of each mime type, at these places, in their order. */
  ghost predicate FirstsAt(codecs: seq<Codec>, simulcast: seq<Simulcast>, at: seq<nat>) {
    && |at| == |codecs| && (forall i, j :: 0 <= i < j < |at| ==> at[i] < at[j])
    && (forall i :: 0 <= i < |at| ==>
          && at[i] < |simulcast| && IsFirst(simulcast, at[i])
          && codecs[i] == Codec(simulcast[at[i]].mime, simulcast[at[i]].cid, ""))
    && (forall k :: 0 <= k < |simulcast| && IsFirst(simulcast, k) ==> k in at)
  }

  ghost predicate OffersMime(simulcast: seq<Simulcast>, mime: string) {
    exists k :: 0 <= k < |simulcast| && simulcast[k].mime == mime
  }

  lemma OffersMimeNext(simulcast: seq<Simulcast>, last: Simulcast, mime: string)
    ensures OffersMime(simulcast + [last], mime) <==> OffersMime(simulcast, mime) || last.mime == mime
  {
    var all := simulcast + [last];
    assert all[|simulcast|] == last && forall k :: 0 <= k < |simulcast| ==> all[k] == simulcast[k];
  }

  lemma {:induction false} HasMimeIff(simulcast: seq<Simulcast>, mime: string)
    ensures HasMime(FirstOfEach(simulcast), mime) <==> mime != "" && OffersMime(simulcast, mime)
  {
    if simulcast != [] {
      var init, last := simulcast[..|simulcast| - 1], simulcast[|simulcast| - 1];
      HasMimeIff(init, mime);
      MimeAdded(FirstOfEach(init), Codec(last.mime, last.cid, ""));
      OffersMimeNext(init, last, mime);
      assert simulcast == init + [last] && FirstOfEach(init) + [] == FirstOfEach(init);
    }
  }

  lemma FirstsNext(codecs: seq<Codec>, simulcast: seq<Simulcast>, at: seq<nat>, last: Simulcast)
    requires FirstsAt(codecs, simulcast, at)
    ensures IsFirst(simulcast + [last], |simulcast|) ==>
              FirstsAt(codecs + [Codec(last.mime, last.cid, "")], simulcast + [last], at + [|simulcast|])
    ensures !IsFirst(simulcast + [last], |simulcast|) ==> FirstsAt(codecs, simulcast + [last], at)
  {
    var all, at' := simulcast + [last], at + [|simulcast|];
    forall k | 0 <= k < |simulcast|
      ensures IsFirst(all, k) <==> IsFirst(simulcast, k)
    {
      assert all[..|simulcast|] == simulcast;
      assert forall j :: 0 <= j <= k ==> all[j] == simulcast[j];
      if IsFirst(all, k) {
        forall j | 0 <= j < k
          ensures simulcast[j].mime != simulcast[k].mime
        {
          assert all[j].mime != all[k].mime;
        }
      }
    }
    assert at'[|at|] == |simulcast| && forall i :: 0 <= i < |at| ==> at'[i] == at[i];
  }

  lemma {:induction false} CodecsAreFirsts(simulcast: seq<Simulcast>) returns (at: seq<nat>)
    ensures FirstsAt(FirstOfEach(simulcast), simulcast, at)
  {
    at := [];
    if simulcast != [] {
      var init, last := simulcast[..|simulcast| - 1], simulcast[|simulcast| - 1];
      at := CodecsAreFirsts(init);
      HasMimeIff(init, last.mime);
      assert simulcast == init + [last];
      assert IsFirst(simulcast, |init|) <==> last.mime != "" && !OffersMime(init, last.mime);
      FirstsNext(FirstOfEach(init), init, at, last);
      if IsFirst(simulcast, |init|) {
        at := at + [|init|];
      }
    }
  }

  lemma MimeAdded(codecs: seq<Codec>, c: Codec)
    ensures forall m :: HasMime(codecs + [c], m) <==> HasMime(codecs, m) || m == c.mime
  {
    assert c in codecs + [c];
    assert forall x :: x in codecs ==> x in codecs + [c];
  }

  /** The track is the newest of its client id, under the id of those before it. */
  ghost predicate Joins(pending: Pending, pending': Pending, req: Request, env: AddEnv, v: Verdict) {
    var there := req.cid in pending;
    && pending'.Keys == pending.Keys + {req.cid}
    && (forall cid :: cid in pending && cid != req.cid ==> pending'[cid] == pending[cid])
    && var e := pending'[req.cid];
       && e.infos != []
       && var before, ti := e.infos[..|e.infos| - 1], e.infos[|e.infos| - 1];
          && before == (if there then pending[req.cid].infos else [])
          && e.queued == (if there then pending[req.cid].queued else env.published)
          && e.migrated == (there && pending[req.cid].migrated)
          && ti.kind == req.kind && ti.muted == req.muted && ti.codecs == CodecsFor(req)
          && ti.sid == (if before != [] && before[0].sid != "" then before[0].sid else env.generated)
          && v == if there || env.published then Queued else Added(ti)
  }

  lemma InsertJoins(pending: Pending, req: Request, env: AddEnv)
    ensures var (pending', v) := Insert(pending, req, env);
            if req.cid in pending && |pending[req.cid].infos| >= MAX_PENDING_QUEUED_TRACKS
            then pending' == pending && v == Rejected else Joins(pending, pending', req, env, v)
  {
    if req.cid in pending {
      var infos, ti := pending[req.cid].infos, NewInfo(pending, req, env.generated);
      assert (infos + [ti])[..|infos|] == infos;
    }
  }

  /**
   What a request does once room was made: it is turned away with twenty entries pending, or with three tracks
   under its client id; else it joins them.
   */
  ghost predicate Adds(t: Tracks, t': Tracks, req: Request, env: AddEnv, v: Verdict) {
    if |t.pending| >= MAX_PENDING_TRACKS then t' == t && v == Rejected
    else
      && Cleared(t.released, t'.released, req)
      && if req.cid in t.pending && |t.pending[req.cid].infos| >= MAX_PENDING_QUEUED_TRACKS
         then t'.pending == t.pending && v == Rejected else Joins(t.pending, t'.pending, req, env, v)
  }

  /** The groups go that have an id the request names. */
  ghost predicate Cleared(was: seq<set<Cid>>, released: seq<set<Cid>>, req: Request) {
    forall g :: g in released <==> g in was && !exists cid :: cid in g && Asks(req, cid)
  }

  lemma ClearGroupsClears(was: seq<set<Cid>>, req: Request)
    ensures Cleared(was, ClearGroups(was, req), req)
  {
    ClearedMembers(was, req);
    forall g
      ensures Touches(req, g) <==> exists cid :: cid in g && Asks(req, cid)
    {
      TouchesIfAsks(req, g);
    }
  }

  /** A request for a track that exists changes nothing; with twenty pending the timed-out ones go first. */
  lemma AddTrackAdds(t: Tracks, req: Request, env: AddEnv)
    ensures AddTrack(t, req, env).1 == Existing <==> req.sid != ""
    ensures req.sid != "" ==> AddTrack(t, req, env).0 == t
    ensures req.sid == "" ==>
              Adds(if |t.pending| < MAX_PENDING_TRACKS then t else ReleaseAll(t, env.timedOut),
                   AddTrack(t, req, env).0, req, env, AddTrack(t, req, env).1)
  {
    var t1 := MakeRoom(t, env);
    ClearGroupsClears(t1.released, req);
    InsertJoins(t1.pending, req, env);
  }

  /** The first track of the entry is gone; the next one waits, and an entry without tracks is gone, too. */
  ghost predicate TakesFirst(was: Pending, pending: Pending, cid: Cid)
    requires cid in was && was[cid].infos != []
  {
    var infos := was[cid].infos;
    && (forall other :: other != cid ==>
          (other in pending <==> other in was) && (other in pending ==> pending[other] == was[other]))
    && (cid in pending <==> |infos| > 1)
    && (cid in pending ==> pending[cid] == Entry(infos[1..], true, was[cid].migrated))
  }

  class ParticipantTracks {
    var pendingTracks: Pending
    var releasedTrackCids: seq<set<Cid>>

    ghost function State(): Tracks
      reads this
    {
      Tracks(pendingTracks, releasedTrackCids)
    }

    constructor ()
      ensures State() == NEW
    {
      pendingTracks, releasedTrackCids := map[], [];
    }

    method AddReleasedTrackCids(cids: set<Cid>)
      modifies this`releasedTrackCids
      ensures releasedTrackCids == AddGroup(old(releasedTrackCids), cids - {""})
      ensures Remembers(old(releasedTrackCids), releasedTrackCids, cids - {""})
    {
      RemembersGroup(releasedTrackCids, cids - {""});
      var g := cids - {""};
      if g == {} {
        return;
      }
      releasedTrackCids := releasedTrackCids + [g];
      if |releasedTrackCids| > MAX_RELEASED_TRACKS {
        releasedTrackCids := releasedTrackCids[1..];
      }
    }

    method ReleasePendingTrack(sid: Sid) returns (released: bool)
      modifies this
      ensures State() == Release(old(State()), sid)
      ensures exists g :: Forgotten(old(State()), State(), sid, g)
      ensures released == Known(old(pendingTracks), sid)
    {
      GroupOfAreIds(pendingTracks, sid);
      ReleaseForgets(State(), sid, GroupOf(pendingTracks, sid));
      var pending, cids, found := Walk(pendingTracks, sid);
      if !found {
        return false;
      }
      pendingTracks := pending;
      AddReleasedTrackCids(cids);
      released := true;
    }

    method IsReleasedTrackCid(cid: Cid) returns (yes: bool)
      ensures yes == IsReleased(releasedTrackCids, cid)
      ensures yes <==> exists k :: 0 <= k < |releasedTrackCids| && cid in releasedTrackCids[k]
    {
      for k := 0 to |releasedTrackCids|
        invariant forall j :: 0 <= j < k ==> cid !in releasedTrackCids[j]
      {
        if cid in releasedTrackCids[k] {
          return true;
        }
      }
      yes := false;
    }

    method ClearReleasedTrackCids(req: Request)
      modifies this`releasedTrackCids
      ensures releasedTrackCids == ClearGroups(old(releasedTrackCids), req)
    {
      var kept: seq<set<Cid>> := [];
      for k := 0 to |releasedTrackCids|
        invariant releasedTrackCids == old(releasedTrackCids) && kept == ClearGroups(releasedTrackCids[..k], req)
      {
        assert releasedTrackCids[..k + 1][..k] == releasedTrackCids[..k];
        if !Touches(req, releasedTrackCids[k]) {
          kept := kept + [releasedTrackCids[k]];
        }
      }
      assert releasedTrackCids[..|releasedTrackCids|] == releasedTrackCids;
      releasedTrackCids := kept;
    }

    method ReleaseTimedOut(sids: seq<Sid>)
      modifies this
      ensures State() == ReleaseAll(old(State()), sids)
    {
      for k := 0 to |sids|
        invariant State() == ReleaseAll(old(State()), sids[..k])
      {
        assert sids[..k + 1][..k] == sids[..k];
        var _ := ReleasePendingTrack(sids[k]);
      }
      assert sids[..|sids|] == sids;
    }

    /** The ids the supervisor reports as timed out are none when there is no supervisor. */
    method AddPendingTrack(req: Request, env: AddEnv) returns (v: Verdict)
      modifies this
      ensures (State(), v) == AddTrack(old(State()), req, env)
    {
      if req.sid != "" {
        return Existing;
      }
      if |pendingTracks| >= MAX_PENDING_TRACKS {
        ReleaseTimedOut(env.timedOut);
      }
      if |pendingTracks| >= MAX_PENDING_TRACKS {
        return Rejected;
      }
      ClearReleasedTrackCids(req);
      var codecs := PopulateCodecs(req);
      var ti := TrackInfo(SidFor(pendingTracks, req.cid, env.generated), req.kind, codecs, req.muted);
      if env.published || req.cid in pendingTracks {
        if req.cid !in pendingTracks {
          pendingTracks := pendingTracks[req.cid := Entry([ti], true, false)];
        } else {
          var e := pendingTracks[req.cid];
          if |e.infos| >= MAX_PENDING_QUEUED_TRACKS {
            return Rejected;
          }
          pendingTracks := pendingTracks[req.cid := e.(infos := e.infos + [ti])];
        }
        return Queued;
      }
      pendingTracks := pendingTracks[req.cid := Entry([ti], false, false)];
      v := Added(ti);
    }

    /** The entry a client id stands for and its first track, unless that waits and waiting ones are skipped. */
    method GetPendingTrack(clientId: Cid, kind: Kind, skipQueued: bool)
        returns (signalCid: Cid, info: Option<TrackInfo>)
      requires AllFit(pendingTracks)
      ensures info.Some? ==> signalCid in Candidates(State(), clientId, kind)
      ensures info.Some? <==> Stands(State(), clientId, kind, signalCid)
                              && !(skipQueued && pendingTracks[signalCid].queued)
      ensures info.Some? ==> info.value == pendingTracks[signalCid].infos[0]
      ensures info.None? ==> || (forall cid :: !Stands(State(), clientId, kind, cid))
                             || (skipQueued && Stands(State(), clientId, kind, signalCid)
                                 && pendingTracks[signalCid].queued)
    {
      CandidatesStand(State(), clientId, kind);
      signalCid := clientId;
      var isReleased := IsReleasedTrackCid(clientId);
      if isReleased {
        return signalCid, None;
      }
      if clientId !in pendingTracks {
        var byCodec := ByCodec(pendingTracks, clientId);
        var byKind := ByKind(pendingTracks, kind);
        if byCodec != {} {
          signalCid :| signalCid in byCodec;
        } else if byKind != {} {
          signalCid :| signalCid in byKind;
        } else {
          return signalCid, None;
        }
      }
      if skipQueued && pendingTracks[signalCid].queued {
        return signalCid, None;
      }
      assert Fits(pendingTracks[signalCid]);
      info := Some(pendingTracks[signalCid].infos[0]);
    }

    /** The pending part of addMediaTrack. */
    method AddMediaTrack(signalCid: Cid) returns (published: TrackInfo)
      requires signalCid in pendingTracks && AllFit(pendingTracks)
      modifies this`pendingTracks
      ensures published == old(pendingTracks)[signalCid].infos[0]
      ensures pendingTracks == Publish(old(pendingTracks), signalCid) && AllFit(pendingTracks)
      ensures TakesFirst(old(pendingTracks), pendingTracks, signalCid)
    {
      var e := pendingTracks[signalCid];
      assert Fits(e);
      published := e.infos[0];
      e := e.(infos := e.infos[1..]);
      if |e.infos| == 0 {
        pendingTracks := pendingTracks - {signalCid};
      } else {
        pendingTracks := pendingTracks[signalCid := e.(queued := true)];
      }
    }

    /** One media section of populateSdpCid: the entry it is matched to, whose first codec takes the stream's id. */
    method PopulateSdpCid(streamId: Cid, kind: Kind, codecMatches: bool) returns (signalCid: Cid)
      requires AllFit(pendingTracks)
      modifies this`pendingTracks
      ensures State() == Step(old(State()), OfferNames(streamId, kind, signalCid, codecMatches))
      ensures pendingTracks != old(pendingTracks) ==> Stands(old(State()), streamId, kind, signalCid)
      ensures Stands(old(State()), streamId, kind, signalCid) ==>
                var e, codecs := old(pendingTracks)[signalCid], old(pendingTracks)[signalCid].infos[0].codecs;
                if !e.migrated && codecs != [] && codecs[0].cid != streamId && (codecMatches || |codecs| == 1) then
                  var named := codecs[0 := Codec(codecs[0].mime, codecs[0].cid, streamId)];
                  pendingTracks == old(pendingTracks)[signalCid :=
                                     e.(infos := e.infos[0 := e.infos[0].(codecs := named)])]
                else pendingTracks == old(pendingTracks)
    {
      var info;
      CandidatesStand(State(), streamId, kind);
      signalCid, info := GetPendingTrack(streamId, kind, false);
      if info.None? || pendingTracks[signalCid].migrated || info.value.codecs == [] {
        return;
      }
      var codecs := info.value.codecs;
      if (codecMatches || |codecs| == 1) && streamId != codecs[0].cid {
        var named := info.value.(codecs := codecs[0 := codecs[0].(sdpCid := streamId)]);
        var e := pendingTracks[signalCid];
        pendingTracks := pendingTracks[signalCid := e.(infos := e.infos[0 := named])];
      }
    }

    /** The pending part of setTrackMuted. */
    method SetTrackMuted(sid: Sid, muted: bool)
      modifies this`pendingTracks
      ensures State() == Step(old(State()), Mute(sid, muted))
      ensures pendingTracks.Keys == old(pendingTracks).Keys
      ensures forall cid :: cid in pendingTracks ==>
                var was, e := old(pendingTracks)[cid], pendingTracks[cid];
                && e == was.(infos := e.infos) && |e.infos| == |was.infos|
                && forall k :: 0 <= k < |e.infos| ==>
                     e.infos[k] == if was.infos[k].sid == sid then was.infos[k].(muted := muted) else was.infos[k]
    {
      var was := pendingTracks;
      var rest := was.Keys;
      while rest != {}
        invariant rest <= was.Keys == pendingTracks.Keys && releasedTrackCids == old(releasedTrackCids)
        invariant forall cid :: cid in was ==>
                    pendingTracks[cid] == if cid in rest then was[cid]
                        else was[cid].(infos := MuteInfos(was[cid].infos, sid, muted))
      {
        var cid :| cid in rest;
        var infos := was[cid].infos;
        for k := 0 to |infos|
          invariant |infos| == |was[cid].infos|
          invariant forall j :: 0 <= j < |infos| ==>
                      infos[j] == if j < k && was[cid].infos[j].sid == sid then was[cid].infos[j].(muted := muted)
                          else was[cid].infos[j]
        {
          if infos[k].sid == sid {
            infos := infos[k := infos[k].(muted := muted)];
          }
        }
        assert infos == MuteInfos(was[cid].infos, sid, muted);
        pendingTracks := pendingTracks[cid := was[cid].(infos := infos)];
        rest := rest - {cid};
      }
      assert pendingTracks == Step(old(State()), Mute(sid, muted)).pending;
    }

    /** The pending part of SetMigrateInfo, one track of it. */
    method AddMigrated(cid: Cid, info: TrackInfo)
      modifies this`pendingTracks
      ensures State() == Step(old(State()), MigrateIn(cid, info))
      ensures pendingTracks == old(pendingTracks)[cid := Entry([info], false, true)]
    {
      pendingTracks := pendingTracks[cid := Entry([info], false, true)];
    }

    /** The pending part of Close. */
    method Close()
      modifies this`pendingTracks
      ensures State() == Step(old(State()), CloseAll) && pendingTracks == map[]
    {
      pendingTracks := map[];
    }

    /** When the published track closes, the next one of its client id goes ahead, and is the one announced. */
    method OnTrackClosed(signalCid: Cid) returns (announced: Option<TrackInfo>)
      requires AllFit(pendingTracks)
      modifies this`pendingTracks
      ensures State() == Step(old(State()), Unpublished(signalCid)) && AllFit(pendingTracks)
      ensures announced == if signalCid in pendingTracks then Some(pendingTracks[signalCid].infos[0]) else None
      ensures pendingTracks == if signalCid !in old(pendingTracks) then old(pendingTracks)
                               else old(pendingTracks)[signalCid := old(pendingTracks)[signalCid].(queued := false)]
    {
      announced := None;
      if signalCid in pendingTracks {
        assert Fits(pendingTracks[signalCid]);
        announced := Some(pendingTracks[signalCid].infos[0]);
        pendingTracks := pendingTracks[signalCid := pendingTracks[signalCid].(queued := false)];
      }
    }
  }

  // ---------------------------------------------------------------------------------------
  // Runs
  // ---------------------------------------------------------------------------------------

  /** Media and offers name the entry they were matched to, as the map may offer several. */
  datatype Event =
    | Add(req: Request, env: AddEnv)
    | Media(clientId: Cid, kind: Kind, cid: Cid)
    | PublishMigrated(cid: Cid)
    | Unpublished(cid: Cid)
    | OfferNames(streamId: Cid, kind: Kind, cid: Cid, codecMatches: bool)
    | Mute(sid: Sid, muted: bool)
    | MigrateIn(cid: Cid, info: TrackInfo)
    | CloseAll

  function Step(t: Tracks, e: Event): Tracks {
    match e
    case Add(req, env) => AddTrack(t, req, env).0
    case Media(clientId, kind, cid) =>
      if cid in t.pending && cid in Candidates(t, clientId, kind) && t.pending[cid].infos != []
          && !t.pending[cid].queued
      then t.(pending := Publish(t.pending, cid)) else t
    case PublishMigrated(cid) =>
      if cid in t.pending && t.pending[cid].infos != [] && t.pending[cid].migrated
      then t.(pending := Publish(t.pending, cid)) else t
    case Unpublished(cid) =>
      if cid in t.pending then t.(pending := t.pending[cid := t.pending[cid].(queued := false)]) else t
    case OfferNames(streamId, kind, cid, codecMatches) =>
      if cid in t.pending && cid in Candidates(t, streamId, kind) && t.pending[cid].infos != []
          && !t.pending[cid].migrated
         && t.pending[cid].infos[0].codecs != [] && (codecMatches || |t.pending[cid].infos[0].codecs| == 1)
         && t.pending[cid].infos[0].codecs[0].cid != streamId
      then t.(pending := NameSdpCid(t.pending, cid, streamId)) else t
    case Mute(sid, muted) =>
      t.(pending := map cid | cid in t.pending :: t.pending[cid].(infos := MuteInfos(t.pending[cid].infos, sid, muted)))
    case MigrateIn(cid, info) => t.(pending := t.pending[cid := Entry([info], false, true)])
    case CloseAll => t.(pending := map[])
  }

  function Exec(t: Tracks, es: seq<Event>): Tracks {
    if es == [] then t else Step(Exec(t, es[..|es| - 1]), es[|es| - 1])
  }

  const NEW: Tracks := Tracks(map[], [])

  // ---------------------------------------------------------------------------------------
  // Each entry holds one to three tracks, which share their id
  // ---------------------------------------------------------------------------------------

  predicate Fits(e: Entry) { 1 <= |e.infos| <= MAX_PENDING_QUEUED_TRACKS }

  predicate OneSid(e: Entry) { forall i, j :: 0 <= i < j < |e.infos| ==> e.infos[i].sid == e.infos[j].sid }

  predicate Named(e: Entry) { forall ti :: ti in e.infos ==> ti.sid != "" }

  ghost predicate AllFit(pending: Pending) { forall cid :: cid in pending ==> Fits(pending[cid]) }

  /** All tracks of an entry have one id, and it is not empty. */
  ghost predicate AllShare(pending: Pending) {
    forall cid :: cid in pending ==> OneSid(pending[cid]) && Named(pending[cid])
  }

  /** Generated and migrated ids are not empty. */
  predicate Names(e: Event) {
    match e
    case Add(_, env) => env.generated != ""
    case MigrateIn(_, info) => info.sid != ""
    case _ => true
  }

  lemma ReleaseFits(t: Tracks, sid: Sid)
    requires AllFit(t.pending)
    ensures AllFit(Release(t, sid).pending)
  {
    forall cid | cid in Without(t.pending, sid)
      ensures Fits(Without(t.pending, sid)[cid])
    {
      RemainingIsPart(t.pending[cid].infos, sid);
    }
  }

  lemma {:induction false} ReleaseAllFits(t: Tracks, sids: seq<Sid>)
    requires AllFit(t.pending)
    ensures AllFit(ReleaseAll(t, sids).pending)
  {
    if sids != [] {
      ReleaseAllFits(t, sids[..|sids| - 1]);
      ReleaseFits(ReleaseAll(t, sids[..|sids| - 1]), sids[|sids| - 1]);
    }
  }

  lemma StepFits(t: Tracks, e: Event)
    requires AllFit(t.pending)
    ensures AllFit(Step(t, e).pending)
  {
    if e.Add? {
      ReleaseAllFits(t, e.env.timedOut);
    }
  }

  /** In every run each pending entry holds at least one track and at most three. */
  lemma {:induction false} EntriesHoldOneToThree(es: seq<Event>)
    ensures AllFit(Exec(NEW, es).pending)
  {
    if es != [] {
      EntriesHoldOneToThree(es[..|es| - 1]);
      StepFits(Exec(NEW, es[..|es| - 1]), es[|es| - 1]);
    }
  }

  lemma ReleaseShares(t: Tracks, sid: Sid)
    requires AllShare(t.pending)
    ensures AllShare(Release(t, sid).pending)
  {
    forall cid | cid in Without(t.pending, sid)
      ensures OneSid(Without(t.pending, sid)[cid]) && Named(Without(t.pending, sid)[cid])
    {
      var rest := Remaining(t.pending[cid].infos, sid);
      RemainingIsPart(t.pending[cid].infos, sid);
      forall i, j | 0 <= i < j < |rest|
        ensures rest[i].sid == rest[j].sid
      {
        assert rest[i] in rest && rest[j] in rest;
      }
    }
  }

  lemma {:induction false} ReleaseAllShares(t: Tracks, sids: seq<Sid>)
    requires AllShare(t.pending)
    ensures AllShare(ReleaseAll(t, sids).pending)
  {
    if sids != [] {
      ReleaseAllShares(t, sids[..|sids| - 1]);
      ReleaseShares(ReleaseAll(t, sids[..|sids| - 1]), sids[|sids| - 1]);
    }
  }

  lemma InsertShares(pending: Pending, req: Request, env: AddEnv)
    requires AllShare(pending) && env.generated != ""
    ensures AllShare(Insert(pending, req, env).0)
  {
    if req.cid in pending && |pending[req.cid].infos| < MAX_PENDING_QUEUED_TRACKS {
      var e := pending[req.cid];
      var ti := NewInfo(pending, req, env.generated);
      assert OneSid(e) && Named(e);
      assert e.infos != [] ==> e.infos[0] in e.infos;
      assert Insert(pending, req, env).0[req.cid].infos == e.infos + [ti];
    }
  }

  lemma PublishShares(pending: Pending, cid: Cid)
    requires AllShare(pending) && cid in pending && pending[cid].infos != []
    ensures AllShare(Publish(pending, cid))
  {
    var rest := pending[cid].infos[1..];
    assert OneSid(pending[cid]) && Named(pending[cid]);
    assert OneSid(pending[cid].(infos := rest, queued := true));
  }

  lemma MuteShares(e: Entry, sid: Sid, muted: bool)
    requires OneSid(e) && Named(e)
    ensures OneSid(e.(infos := MuteInfos(e.infos, sid, muted))) && Named(e.(infos := MuteInfos(e.infos, sid, muted)))
  {
  }

  lemma NameShares(pending: Pending, cid: Cid, sdpCid: Cid)
    requires AllShare(pending) && cid in pending && pending[cid].infos != [] && pending[cid].infos[0].codecs != []
    ensures AllShare(NameSdpCid(pending, cid, sdpCid))
  {
    assert OneSid(pending[cid]) && Named(pending[cid]);
    assert pending[cid].infos[0] in pending[cid].infos;
  }

  lemma StepShares(t: Tracks, e: Event)
    requires AllShare(t.pending) && Names(e)
    ensures AllShare(Step(t, e).pending)
  {
    match e
    case Add(req, env) => {
      ReleaseAllShares(t, env.timedOut);
      InsertShares(MakeRoom(t, env).pending, req, env);
    }
    case Media(clientId, kind, cid) =>
      if cid in t.pending && t.pending[cid].infos != [] {
        PublishShares(t.pending, cid);
      }
    case PublishMigrated(cid) =>
      if cid in t.pending && t.pending[cid].infos != [] {
        PublishShares(t.pending, cid);
      }
    case OfferNames(streamId, kind, cid, codecMatches) =>
      if cid in t.pending && t.pending[cid].infos != [] && t.pending[cid].infos[0].codecs != [] {
        NameShares(t.pending, cid, streamId);
      }
    case Mute(sid, muted) =>
      forall cid | cid in t.pending
        ensures var x := t.pending[cid].(infos := MuteInfos(t.pending[cid].infos, sid, muted)); OneSid(x) && Named(x)
      {
        MuteShares(t.pending[cid], sid, muted);
      }
    case Unpublished(cid) =>
      if cid in t.pending {
        assert OneSid(t.pending[cid]) && Named(t.pending[cid]);
      }
    case MigrateIn(cid, info) =>
    case CloseAll =>
  }

  lemma {:induction false} RunShares(es: seq<Event>)
    requires forall e :: e in es ==> Names(e)
    ensures AllShare(Exec(NEW, es).pending)
  {
    if es != [] {
      assert es == es[..|es| - 1] + [es[|es| - 1]];
      RunShares(es[..|es| - 1]);
      StepShares(Exec(NEW, es[..|es| - 1]), es[|es| - 1]);
    }
  }

  lemma {:induction false} AllOrNone(infos: seq<TrackInfo>, sid: Sid)
    requires forall i, j :: 0 <= i < j < |infos| ==> infos[i].sid == infos[j].sid
    ensures Remaining(infos, sid) == if HasSid(infos, sid) then [] else infos
  {
    if infos != [] {
      var init, last := infos[..|infos| - 1], infos[|infos| - 1];
      assert infos == init + [last];
      assert last in infos;
      AllOrNone(init, sid);
    }
  }

  lemma WithoutTakesWholeEntries(pending: Pending, sid: Sid)
    requires AllShare(pending) && AllFit(pending)
    ensures Without(pending, sid) == map cid | cid in pending && !HasSid(pending[cid].infos, sid) :: pending[cid]
  {
    forall cid | cid in pending
      ensures Remaining(pending[cid].infos, sid) == if HasSid(pending[cid].infos, sid) then [] else pending[cid].infos
      ensures pending[cid].infos != []
    {
      assert OneSid(pending[cid]) && Fits(pending[cid]);
      AllOrNone(pending[cid].infos, sid);
    }
  }

  lemma NotKnownIsWhole(pending: Pending, sid: Sid)
    requires !Known(pending, sid)
    ensures pending == map cid | cid in pending && !HasSid(pending[cid].infos, sid) :: pending[cid]
  {
  }

  /** A release takes whole entries: the tracks queued under a client id share their id and go together. */
  lemma ReleaseTakesWholeEntries(es: seq<Event>, sid: Sid)
    requires forall e :: e in es ==> Names(e)
    ensures var t := Exec(NEW, es);
            Release(t, sid).pending
            == map cid | cid in t.pending && !HasSid(t.pending[cid].infos, sid) :: t.pending[cid]
  {
    var t := Exec(NEW, es);
    RunShares(es);
    EntriesHoldOneToThree(es);
    if Known(t.pending, sid) {
      WithoutTakesWholeEntries(t.pending, sid);
    } else {
      NotKnownIsWhole(t.pending, sid);
    }
  }

  // ---------------------------------------------------------------------------------------
  // Bounds
  // ---------------------------------------------------------------------------------------

  lemma {:induction false} ReleaseAllShrinks(t: Tracks, sids: seq<Sid>)
    ensures ReleaseAll(t, sids).pending.Keys <= t.pending.Keys
  {
    if sids != [] {
      ReleaseAllShrinks(t, sids[..|sids| - 1]);
    }
  }

  /** A request never brings the entries above twenty: it adds none, or leaves at most twenty. */
  lemma AddIsBounded(t: Tracks, req: Request, env: AddEnv)
    ensures var t' := AddTrack(t, req, env).0; t'.pending.Keys <= t.pending.Keys || |t'.pending| <= MAX_PENDING_TRACKS
  {
    var t1, t' := MakeRoom(t, env), AddTrack(t, req, env).0;
    ReleaseAllShrinks(t, env.timedOut);
    if Admitted(t, req, env) && req.cid !in t1.pending {
      assert t'.pending.Keys == t1.pending.Keys + {req.cid};
      assert |t'.pending| == |t'.pending.Keys| && |t1.pending| == |t1.pending.Keys|;
    }
  }

  /** A track migrates in under a client id of its own while twenty entries are pending. */
  predicate Overfills(t: Tracks, e: Event) {
    e.MigrateIn? && e.cid !in t.pending && |t.pending| >= MAX_PENDING_TRACKS
  }

  lemma NoMoreKeys(t: Tracks, t': Tracks)
    requires t'.pending.Keys <= t.pending.Keys
    ensures |t'.pending| <= |t.pending|
  {
    SubsetIsSmaller(t'.pending.Keys, t.pending.Keys);
    assert |t'.pending| == |t'.pending.Keys| && |t.pending| == |t.pending.Keys|;
  }

  lemma StepIsBounded(t: Tracks, e: Event)
    requires |t.pending| <= MAX_PENDING_TRACKS && !e.MigrateIn?
    ensures |Step(t, e).pending| <= MAX_PENDING_TRACKS
  {
    var t' := Step(t, e);
    if e.Add? {
      AddIsBounded(t, e.req, e.env);
    } else {
      assert t'.pending.Keys <= t.pending.Keys;
    }
    if t'.pending.Keys <= t.pending.Keys {
      NoMoreKeys(t, t');
    }
  }

  /** One event keeps the entries within twenty exactly if it does not overfill. */
  lemma StepIsBoundedIff(t: Tracks, e: Event)
    requires |t.pending| <= MAX_PENDING_TRACKS
    ensures |Step(t, e).pending| <= MAX_PENDING_TRACKS <==> !Overfills(t, e)
  {
    if !e.MigrateIn? {
      StepIsBounded(t, e);
    } else if e.cid in t.pending {
      assert Step(t, e).pending.Keys == t.pending.Keys;
      NoMoreKeys(t, Step(t, e));
    }
  }

  predicate NeverOverfills(es: seq<Event>) {
    es == [] || (NeverOverfills(es[..|es| - 1]) && !Overfills(Exec(NEW, es[..|es| - 1]), es[|es| - 1]))
  }

  predicate AlwaysTwenty(es: seq<Event>) {
    |Exec(NEW, es).pending| <= MAX_PENDING_TRACKS && (es == [] || AlwaysTwenty(es[..|es| - 1]))
  }

  /** There are at most twenty entries throughout a run if and only if no event of it overfills. */
  lemma {:induction false} AlwaysTwentyIff(es: seq<Event>)
    ensures AlwaysTwenty(es) <==> NeverOverfills(es)
  {
    if es != [] {
      AlwaysTwentyIff(es[..|es| - 1]);
      if AlwaysTwenty(es[..|es| - 1]) {
        StepIsBoundedIff(Exec(NEW, es[..|es| - 1]), es[|es| - 1]);
      }
    }
  }

  /** Without migration there are never more than twenty entries. */
  lemma {:induction false} AtMostTwenty(es: seq<Event>)
    requires forall e :: e in es ==> !e.MigrateIn?
    ensures |Exec(NEW, es).pending| <= MAX_PENDING_TRACKS
  {
    if es != [] {
      assert es == es[..|es| - 1] + [es[|es| - 1]];
      AtMostTwenty(es[..|es| - 1]);
      StepIsBounded(Exec(NEW, es[..|es| - 1]), es[|es| - 1]);
    }
  }

  /** The migration of `n` tracks, each under a client id of its own. */
  function Migrations(n: nat): seq<Event> {
    if n == 0 then [] else Migrations(n - 1) + [MigrateIn(seq(n, _ => 'c'), TrackInfo("s", Video, [], false))]
  }

  /** Migration is not bounded: any number of entries can be pending, more than twenty among them. */
  lemma {:induction false} MigrationPassesTwenty(n: nat)
    ensures |Exec(NEW, Migrations(n)).pending| == n
    ensures forall cid :: cid in Exec(NEW, Migrations(n)).pending ==> |cid| <= n
  {
    if n > 0 {
      var before := Exec(NEW, Migrations(n - 1)).pending;
      MigrationPassesTwenty(n - 1);
      var e := MigrateIn(seq(n, _ => 'c'), TrackInfo("s", Video, [], false));
      assert Migrations(n)[..|Migrations(n)| - 1] == Migrations(n - 1);
      assert Exec(NEW, Migrations(n)) == Step(Exec(NEW, Migrations(n - 1)), e);
      assert e.cid !in before;
    }
  }

  /** At most 32 groups, none empty, none with the empty id. */
  ghost predicate GroupsFit(released: seq<set<Cid>>) {
    |released| <= MAX_RELEASED_TRACKS && forall g :: g in released ==> g != {} && "" !in g
  }

  lemma {:induction false} ClearedMembers(released: seq<set<Cid>>, req: Request)
    ensures |ClearGroups(released, req)| <= |released|
    ensures forall g :: g in ClearGroups(released, req) <==> g in released && !Touches(req, g)
  {
    if released != [] {
      ClearedMembers(released[..|released| - 1], req);
      assert released == released[..|released| - 1] + [released[|released| - 1]];
    }
  }

  lemma AddGroupFits(released: seq<set<Cid>>, g: set<Cid>)
    requires GroupsFit(released) && "" !in g
    ensures GroupsFit(AddGroup(released, g))
  {
    assert forall x :: x in AddGroup(released, g) ==> x in released || (x == g && g != {});
  }

  lemma {:induction false} ReleaseAllGroupsFit(t: Tracks, sids: seq<Sid>)
    requires GroupsFit(t.released)
    ensures GroupsFit(ReleaseAll(t, sids).released)
  {
    if sids != [] {
      var before := ReleaseAll(t, sids[..|sids| - 1]);
      ReleaseAllGroupsFit(t, sids[..|sids| - 1]);
      AddGroupFits(before.released, GroupOf(before.pending, sids[|sids| - 1]));
    }
  }

  lemma {:induction false} ReleasedAreBounded(es: seq<Event>)
    ensures GroupsFit(Exec(NEW, es).released)
  {
    if es != [] {
      var t, e := Exec(NEW, es[..|es| - 1]), es[|es| - 1];
      ReleasedAreBounded(es[..|es| - 1]);
      if e.Add? {
        ReleaseAllGroupsFit(t, e.env.timedOut);
        ClearedMembers(MakeRoom(t, e.env).released, e.req);
      }
    }
  }

  // ---------------------------------------------------------------------------------------
  // A released client id stays released
  // ---------------------------------------------------------------------------------------

  /** The group is there with at most `n` groups behind it. */
  ghost predicate Within(released: seq<set<Cid>>, g: set<Cid>, n: nat) {
    exists i :: 0 <= i < |released| && released[i] == g && |released| - 1 - i <= n
  }

  /** How many groups these releases add. */
  function GroupsAdded(t: Tracks, sids: seq<Sid>): nat {
    if sids == [] then 0
    else
      var before, sid := ReleaseAll(t, sids[..|sids| - 1]), sids[|sids| - 1];
      GroupsAdded(t, sids[..|sids| - 1]) + if Known(before.pending, sid) && GroupOf(before.pending, sid) != {} then 1
          else 0
  }

  function StepAdds(t: Tracks, e: Event): nat {
    if e.Add? && e.req.sid == "" && |t.pending| >= MAX_PENDING_TRACKS then GroupsAdded(t, e.env.timedOut) else 0
  }

  /** Groups added over a run. */
  function RunAdds(t: Tracks, es: seq<Event>): nat {
    if es == [] then 0 else RunAdds(t, es[..|es| - 1]) + StepAdds(Exec(t, es[..|es| - 1]), es[|es| - 1])
  }

  /** The request names this id, as its own or as that of a simulcast codec. */
  ghost predicate Asks(req: Request, cid: Cid) {
    cid == req.cid || (cid != "" && exists k :: 0 <= k < |req.simulcast| && req.simulcast[k].cid == cid)
  }

  /** A request that was not turned away for want of room names one of the group's ids. */
  ghost predicate Readds(t: Tracks, e: Event, g: set<Cid>) {
    e.Add? && Admitted(t, e.req, e.env) && exists cid :: cid in g && Asks(e.req, cid)
  }

  lemma TouchesIfAsks(req: Request, g: set<Cid>)
    ensures Touches(req, g) <==> exists cid :: cid in g && Asks(req, cid)
  {
    if s :| s in req.simulcast && s.cid != "" && s.cid in g {
      assert Asks(req, s.cid);
    }
  }

  ghost predicate NeverReadded(t: Tracks, es: seq<Event>, g: set<Cid>) {
    es == [] || (NeverReadded(t, es[..|es| - 1], g) && !Readds(Exec(t, es[..|es| - 1]), es[|es| - 1], g))
  }

  lemma AddGroupKeeps(released: seq<set<Cid>>, added: set<Cid>, g: set<Cid>, n: nat)
    requires Within(released, g, n) && n + 1 < MAX_RELEASED_TRACKS && added != {}
    ensures Within(AddGroup(released, added), g, n + 1)
  {
    var i :| 0 <= i < |released| && released[i] == g && |released| - 1 - i <= n;
    var r := AddGroup(released, added);
    assert r[if |released| >= MAX_RELEASED_TRACKS then i - 1 else i] == g;
  }

  lemma {:induction false} ReleaseAllKeeps(t: Tracks, sids: seq<Sid>, g: set<Cid>, n: nat)
    requires Within(t.released, g, n) && n + GroupsAdded(t, sids) < MAX_RELEASED_TRACKS
    ensures Within(ReleaseAll(t, sids).released, g, n + GroupsAdded(t, sids))
  {
    if sids != [] {
      var before, sid := ReleaseAll(t, sids[..|sids| - 1]), sids[|sids| - 1];
      ReleaseAllKeeps(t, sids[..|sids| - 1], g, n);
      if Known(before.pending, sid) && GroupOf(before.pending, sid) != {} {
        AddGroupKeeps(before.released, GroupOf(before.pending, sid), g, n + GroupsAdded(t, sids[..|sids| - 1]));
      }
    }
  }

  lemma {:induction false} ClearKeeps(released: seq<set<Cid>>, req: Request, g: set<Cid>, n: nat)
    requires Within(released, g, n) && !Touches(req, g)
    ensures Within(ClearGroups(released, req), g, n)
  {
    var i :| 0 <= i < |released| && released[i] == g && |released| - 1 - i <= n;
    var init, last := released[..|released| - 1], released[|released| - 1];
    var r := ClearGroups(released, req);
    if i == |released| - 1 {
      assert r[|r| - 1] == g;
    } else {
      assert init[i] == g;
      ClearKeeps(init, req, g, n - 1);
      var k :| 0 <= k < |ClearGroups(init, req)| && ClearGroups(init, req)[k] == g
          && |ClearGroups(init, req)| - 1 - k <= n - 1;
      assert r[k] == g;
    }
  }

  lemma StepKeepsGroup(t: Tracks, e: Event, g: set<Cid>, n: nat)
    requires Within(t.released, g, n) && n + StepAdds(t, e) < MAX_RELEASED_TRACKS && !Readds(t, e, g)
    ensures Within(Step(t, e).released, g, n + StepAdds(t, e))
  {
    if e.Add? && e.req.sid == "" {
      if |t.pending| >= MAX_PENDING_TRACKS {
        ReleaseAllKeeps(t, e.env.timedOut, g, n);
      }
      if Admitted(t, e.req, e.env) {
        TouchesIfAsks(e.req, g);
        ClearKeeps(MakeRoom(t, e.env).released, e.req, g, n + StepAdds(t, e));
      }
    }
  }

  lemma {:induction false} GroupStays(t: Tracks, es: seq<Event>, g: set<Cid>, n: nat)
    requires Within(t.released, g, n) && n + RunAdds(t, es) < MAX_RELEASED_TRACKS && NeverReadded(t, es, g)
    ensures Within(Exec(t, es).released, g, n + RunAdds(t, es))
  {
    if es != [] {
      GroupStays(t, es[..|es| - 1], g, n);
      StepKeepsGroup(Exec(t, es[..|es| - 1]), es[|es| - 1], g, n + RunAdds(t, es[..|es| - 1]));
    }
  }

  lemma NewestIsWithin(released: seq<set<Cid>>, g: set<Cid>)
    requires g != {}
    ensures Within(AddGroup(released, g), g, 0)
  {
    var r := AddGroup(released, g);
    assert r[|r| - 1] == g;
  }

  lemma WithinIsReleased(released: seq<set<Cid>>, g: set<Cid>, n: nat, cid: Cid)
    requires Within(released, g, n) && cid in g
    ensures IsReleased(released, cid)
  {
    var i :| 0 <= i < |released| && released[i] == g;
    assert g in released;
  }

  /** Releases in two goes. */
  lemma {:induction false} ReleaseAllConcat(t: Tracks, first: seq<Sid>, rest: seq<Sid>)
    ensures ReleaseAll(t, first + rest) == ReleaseAll(ReleaseAll(t, first), rest)
    decreases |rest|
  {
    if rest == [] {
      assert first + rest == first;
    } else {
      ReleaseAllConcat(t, first, rest[..|rest| - 1]);
      assert (first + rest)[..|first + rest| - 1] == first + rest[..|rest| - 1];
    }
  }

  /** What is left of the entries when the request comes to the k-th of the timed-out tracks. */
  function PendingAt(t: Tracks, env: AddEnv, k: nat): Pending
    requires k < |env.timedOut|
  {
    ReleaseAll(t, env.timedOut[..k]).pending
  }

  /** The request makes room, the k-th of the timed-out tracks is there to be released, and `g` are its ids. */
  ghost predicate ReleasesAt(t: Tracks, req: Request, env: AddEnv, k: nat, g: set<Cid>) {
    && req.sid == "" && |t.pending| >= MAX_PENDING_TRACKS && k < |env.timedOut|
    && (exists cid :: GoesBy(PendingAt(t, env, k), env.timedOut[k], cid))
    && AreIdsOf(g, PendingAt(t, env, k), env.timedOut[k])
  }

  /** How many groups the same request adds behind that one. */
  function AddedBehind(t: Tracks, env: AddEnv, k: nat): nat
    requires k < |env.timedOut|
  {
    GroupsAdded(ReleaseAll(t, env.timedOut[..k + 1]), env.timedOut[k + 1..])
  }

  /** After the request, the ids are there with the groups it added behind them, unless it cleared them. */
  lemma ReleasedByRequest(t: Tracks, req: Request, env: AddEnv, k: nat, g: set<Cid>)
    requires ReleasesAt(t, req, env, k, g) && g != {} && AddedBehind(t, env, k) < MAX_RELEASED_TRACKS
    requires !Readds(t, Add(req, env), g)
    ensures Within(AddTrack(t, req, env).0.released, g, AddedBehind(t, env, k))
  {
    var sids := env.timedOut;
    var before, after := ReleaseAll(t, sids[..k]), ReleaseAll(t, sids[..k + 1]);
    assert sids[..k + 1][..k] == sids[..k];
    assert after == Release(before, sids[k]);
    GroupOfAreIds(before.pending, sids[k]);
    assert g == GroupOf(before.pending, sids[k]);
    NewestIsWithin(before.released, g);
    ReleaseAllKeeps(after, sids[k + 1..], g, 0);
    ReleaseAllConcat(t, sids[..k + 1], sids[k + 1..]);
    assert sids[..k + 1] + sids[k + 1..] == sids;
    if Admitted(t, req, env) {
      TouchesIfAsks(req, g);
      ClearKeeps(MakeRoom(t, env).released, req, g, AddedBehind(t, env, k));
    }
  }

  /** Nothing names one of the ids again, and fewer than 32 groups come behind them, in this request and the run. */
  ghost predicate KeptReleased(t: Tracks, req: Request, env: AddEnv, k: nat, g: set<Cid>, es: seq<Event>)
    requires k < |env.timedOut|
  {
    var t' := Step(t, Add(req, env));
    && !Readds(t, Add(req, env), g) && NeverReadded(t', es, g)
    && AddedBehind(t, env, k) + RunAdds(t', es) < MAX_RELEASED_TRACKS
  }

  /** The id stands for no entry, so media and offers under it change nothing. */
  ghost predicate StandsForNothing(t: Tracks, cid: Cid) {
    && (forall kind :: Candidates(t, cid, kind) == {})
    && (forall kind, other :: Step(t, Media(cid, kind, other)) == t)
    && (forall kind, other, matches :: Step(t, OfferNames(cid, kind, other, matches)) == t)
  }

  lemma ReleasedIsNothing(t: Tracks, cid: Cid)
    requires IsReleased(t.released, cid)
    ensures StandsForNothing(t, cid)
  {
    forall kind, other, matches
      ensures Step(t, Media(cid, kind, other)) == t && Step(t, OfferNames(cid, kind, other, matches)) == t
    {
      ReleasedIdsAreIgnored(t, cid, kind, other, matches);
    }
  }

  /**
   From the request that releases the track on, each client id it goes by (that of its entry, and those of its
   codecs in either role) stands for no entry, not even one of its own kind, until a request that is let in
   names one of them (the releasing one included), or 32 other tracks have been released.
   */
  lemma ReleasedStandsForNothing(t: Tracks, req: Request, env: AddEnv, k: nat, g: set<Cid>, es: seq<Event>, cid: Cid)
    requires ReleasesAt(t, req, env, k, g) && cid != "" && GoesBy(PendingAt(t, env, k), env.timedOut[k], cid)
    ensures KeptReleased(t, req, env, k, g, es) ==> StandsForNothing(Exec(Step(t, Add(req, env)), es), cid)
  {
    if KeptReleased(t, req, env, k, g, es) {
      var t', n := Step(t, Add(req, env)), AddedBehind(t, env, k);
      ReleasedByRequest(t, req, env, k, g);
      GroupStays(t', es, g, n);
      WithinIsReleased(Exec(t', es).released, g, n + RunAdds(t', es), cid);
      ReleasedIsNothing(Exec(t', es), cid);
    }
  }

  /** The request that names one of the ids again makes all of them usable. */
  lemma ReaddingClearsTheGroup(t: Tracks, req: Request, env: AddEnv, g: set<Cid>)
    requires Readds(t, Add(req, env), g)
    ensures g !in AddTrack(t, req, env).0.released
  {
    TouchesIfAsks(req, g);
    ClearedMembers(MakeRoom(t, env).released, req);
  }

  /**
   Media takes the first track of an entry its client id stands for, unless that entry waits; and a migrated track
   is published from its own entry. Nothing else is taken.
   */
  lemma MediaTakesFirst(t: Tracks, clientId: Cid, kind: Kind, cid: Cid)
    requires AllFit(t.pending)
    ensures var t' := Step(t, Media(clientId, kind, cid));
            if Stands(t, clientId, kind, cid) && !t.pending[cid].queued
            then TakesFirst(t.pending, t'.pending, cid) && t'.released == t.released else t' == t
    ensures var t' := Step(t, PublishMigrated(cid));
            if cid in t.pending && t.pending[cid].migrated
            then TakesFirst(t.pending, t'.pending, cid) && t'.released == t.released else t' == t
  {
    CandidatesStand(t, clientId, kind);
    if cid in t.pending {
      assert Fits(t.pending[cid]);
    }
  }

  /** Media or an offer under a released client id changes nothing. */
  lemma ReleasedIdsAreIgnored(t: Tracks, clientId: Cid, kind: Kind, cid: Cid, codecMatches: bool)
    requires IsReleased(t.released, clientId)
    ensures Step(t, Media(clientId, kind, cid)) == t && Step(t, OfferNames(clientId, kind, cid, codecMatches)) == t
  {
  }
}
