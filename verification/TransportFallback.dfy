/**
 Falling back from one ICE candidate type to another: a shift register over loss reports, failure counting,
 and a decision taken under the lock but carried out after it has been released.
 */
module TransportFallback {
  import opened Prelude

  datatype CandidateType = Any | Tcp | Tls

  datatype ConnectionType = Unknown | Udp | TcpConnection | Turn

  datatype IceConfig = IceConfig(subscriber: CandidateType, publisher: CandidateType)

  /** `scaled` is what 32-bit floating point makes of 1.3 times a round-trip time, truncated. */
  datatype Params = Params(allowTcpFallback: bool, oneShotSignalling: bool, tcpFallbackRttThreshold: int,
                           allowUdpUnstableFallback: bool, turnsEnabled: bool, supportsIceTcp: bool, scaled: nat -> nat)

  const FAILURE_COUNT_THRESHOLD := 2
  /** A minute, in nanoseconds. */
  const PREFER_NEXT_BY_FAILURE_WINDOW: nat := 60_000_000_000
  const UDP_LOSS_FRAC_UNSTABLE := 25
  const UDP_LOSS_UNSTABLE_COUNT_THRESHOLD := 20
  const WORD: nat := 0x1_0000_0000
  const WORD_BITS: nat := 32

  /**
   The manager's part in this. `unstable` is the 32-bit register; `decided` are the preferences decided on
   by calls of handleConnectionFailed that have released the lock and not yet come to configureICE.
   */
  datatype Transport = Transport(failureCount: nat, lastFailure: Option<nat>, reconfigured: bool, unstable: nat,
                                 udpRtt: nat, signalingRtt: nat, ice: IceConfig, decided: multiset<CandidateType>)

  function NewTransport(): Transport { Transport(0, None, false, 0, 0, 0, IceConfig(Any, Any), multiset{}) }

  // ---------------------------------------------------------------------------------------
  // The lock-held steps
  // ---------------------------------------------------------------------------------------

  function Reset(t: Transport, reconfigured: bool): Transport {
    t.(failureCount := 0, reconfigured := reconfigured, unstable := 0, lastFailure := None)
  }

  function Configure(t: Transport, ice: IceConfig, reset: bool): Transport {
    var t1 := if reset || t.ice != ice then Reset(t, !reset) else t;
    t1.(ice := ice)
  }

  predicate CanUseIceTcp(c: Params, signalingRtt: nat) {
    c.tcpFallbackRttThreshold == 0 || signalingRtt < c.tcpFallbackRttThreshold
  }

  function GetNext(c: Params, preferred: CandidateType, signalingRtt: nat, lowest: ConnectionType): CandidateType {
    match lowest
    case Udp =>
      if preferred != Any then Any
      else if c.supportsIceTcp && CanUseIceTcp(c, signalingRtt) then Tcp
      else if c.turnsEnabled then Tls else Any
    case TcpConnection => if c.turnsEnabled then Tls else preferred
    case Turn => preferred
    case Unknown => Any
  }

  /** What a failure finds: whether signalling is alive, the lowest-priority connection type, and the clock. */
  datatype Failure = Failure(short: bool, signal: bool, lowest: ConnectionType, now: nat)

  /** A failure that counts, though it may not yet suffice. */
  function Counted(t: Transport, f: Failure): Transport {
    if f.short then t else t.(failureCount := t.failureCount + 1, lastFailure := Some(f.now))
  }

  predicate Suffices(t: Transport, f: Failure) {
    f.short || (t.failureCount + 1 >= FAILURE_COUNT_THRESHOLD && t.lastFailure.Some?
                && f.now - t.lastFailure.value <= PREFER_NEXT_BY_FAILURE_WINDOW)
  }

  predicate Considers(c: Params, t: Transport) { c.allowTcpFallback && !c.oneShotSignalling && !t.reconfigured }

  /** handleConnectionFailed up to the release of the lock, with the preference it goes on to configure. */
  function Decide(c: Params, t: Transport, f: Failure): (Transport, Option<CandidateType>) {
    if !Considers(c, t) then (t, None)
    else if !f.signal then (t.(failureCount := 0, lastFailure := None), None)
    else
      var t1, next := Counted(t, f), GetNext(c, t.ice.subscriber, t.signalingRtt, f.lowest);
      if !Suffices(t, f) || next == t.ice.subscriber then (t1, None)
      else (t1.(reconfigured := true, decided := t1.decided + multiset{next}), Some(next))
  }

  predicate Watches(c: Params) { c.tcpFallbackRttThreshold != 0 && c.allowUdpUnstableFallback }

  predicate IsUnstable(loss: nat) { loss >= 255 * UDP_LOSS_FRAC_UNSTABLE / 100 }

  function Shift(register: nat, bit: bool): nat { register * 2 % WORD + if bit then 1 else 0 }

  /** The number of bits set. */
  function Ones(n: nat): nat { if n == 0 then 0 else Ones(n / 2) + n % 2 }

  predicate SignallingIsBetter(c: Params, t: Transport, recent: bool) {
    t.udpRtt > 0 && t.signalingRtt < c.scaled(t.udpRtt) && t.signalingRtt < c.tcpFallbackRttThreshold && recent
  }

  predicate Escalates(c: Params, t: Transport, loss: nat, recent: bool) {
    Watches(c) && IsUnstable(loss) && Ones(Shift(t.unstable, true)) >= UDP_LOSS_UNSTABLE_COUNT_THRESHOLD
    && SignallingIsBetter(c, t, recent)
  }

  function LossReported(c: Params, t: Transport, loss: nat, recent: bool): Transport {
    if !Watches(c) then t
    else if Escalates(c, t, loss, recent) then t.(unstable := 0)
    else t.(unstable := Shift(t.unstable, IsUnstable(loss)))
  }

  /** Smoothing with a division that truncates toward zero. */
  function Smoothed(average: nat, rtt: nat): nat {
    if average == 0 then rtt
    else if rtt >= average then average + (rtt - average) / 2 else average - (average - rtt) / 2
  }

  /**
   A client's reconnect resets only after a short connection; the call of handleConnectionFailed that
   follows is a Fail of its own, as is the one that follows an escalation.
   */
  datatype Event =
    | Loss(loss: nat, recent: bool)
    | Fail(f: Failure)
    | Apply(next: CandidateType)
    | ShortReconnect
    | SetIce(ice: IceConfig)
    | SignalingRtt(rtt: nat)
    | MediaRtt(rtt: nat)

  function Step(c: Params, t: Transport, e: Event): Transport {
    match e
    case Loss(loss, recent) => LossReported(c, t, loss, recent)
    case Fail(f) => Decide(c, t, f).0
    case Apply(next) =>
      if next !in t.decided then t
      else Configure(t.(decided := t.decided - multiset{next}), IceConfig(next, next), false)
    case ShortReconnect => Reset(t, false)
    case SetIce(ice) => Configure(t, ice, true)
    case SignalingRtt(rtt) => t.(signalingRtt := rtt)
    case MediaRtt(rtt) => t.(udpRtt := Smoothed(t.udpRtt, rtt))
  }

  function Run(c: Params, es: seq<Event>): Transport {
    if es == [] then NewTransport() else Step(c, Run(c, es[..|es| - 1]), es[|es| - 1])
  }

  // ---------------------------------------------------------------------------------------
  // The manager as the source has it
  // ---------------------------------------------------------------------------------------

  class TransportManager {
    const params: Params
    var failureCount: nat
    var lastFailure: Option<nat>
    var isTransportReconfigured: bool
    var udpLossUnstableCount: nat
    var udpRtt: nat
    var signalingRtt: nat
    var iceConfig: IceConfig
    ghost var decided: multiset<CandidateType>

    ghost function State(): Transport
      reads this
    {
      Transport(failureCount, lastFailure, isTransportReconfigured, udpLossUnstableCount, udpRtt, signalingRtt,
          iceConfig, decided)
    }

    constructor (c: Params)
      ensures params == c && State() == NewTransport()
    {
      params := c;
      failureCount, lastFailure, isTransportReconfigured, udpLossUnstableCount := 0, None, false, 0;
      udpRtt, signalingRtt, iceConfig, decided := 0, 0, IceConfig(Any, Any), multiset{};
    }

    method ResetTransportConfigure(reconfigured: bool)
      modifies this
      ensures State() == Reset(old(State()), reconfigured)
      ensures State() == old(State()).(failureCount := 0, lastFailure := None, unstable := 0,
                                       reconfigured := reconfigured)
    {
      failureCount := 0;
      isTransportReconfigured := reconfigured;
      udpLossUnstableCount := 0;
      lastFailure := None;
    }

    method ConfigureIce(ice: IceConfig, reset: bool) returns (changed: bool)
      modifies this
      ensures State() == Configure(old(State()), ice, reset)
      ensures iceConfig == ice
      ensures if reset || old(iceConfig) != ice then
                failureCount == 0 && lastFailure.None? && udpLossUnstableCount == 0 && isTransportReconfigured == !reset
              else State() == old(State())
      ensures changed <==> old(iceConfig) != ice
    {
      var isEqual := iceConfig == ice;
      if reset || !isEqual {
        ResetTransportConfigure(!reset);
      }
      if isEqual {
        return false;
      }
      iceConfig := ice;
      changed := true;
    }

    /** Up to the release of the lock; the caller goes on to configure what is returned. */
    method HandleConnectionFailed(f: Failure) returns (next: Option<CandidateType>)
      modifies this
      ensures (State(), next) == Decide(params, old(State()), f)
      ensures var considers := params.allowTcpFallback && !params.oneShotSignalling && !old(isTransportReconfigured);
              && failureCount == (if !considers then old(failureCount) else if !f.signal then 0
                                  else if f.short then old(failureCount) else old(failureCount) + 1)
              && lastFailure == (if !considers then old(lastFailure) else if !f.signal then None
                                 else if f.short then old(lastFailure) else Some(f.now))
              && (isTransportReconfigured <==> old(isTransportReconfigured) || next.Some?)
              && iceConfig == old(iceConfig)
    {
      next := None;
      if !params.allowTcpFallback || params.oneShotSignalling {
        return;
      }
      if isTransportReconfigured {
        return;
      }
      if !f.signal {
        failureCount := 0;
        lastFailure := None;
        return;
      }
      var preferNext := GetNext(params, iceConfig.subscriber, signalingRtt, f.lowest);
      if !f.short {
        failureCount := failureCount + 1;
        var last := lastFailure;
        lastFailure := Some(f.now);
        if failureCount < FAILURE_COUNT_THRESHOLD || last.None? || f.now - last.value > PREFER_NEXT_BY_FAILURE_WINDOW {
          return;
        }
      }
      if preferNext == iceConfig.subscriber {
        return;
      }
      isTransportReconfigured := true;
      decided := decided + multiset{preferNext};
      next := Some(preferNext);
    }

    /** The configureICE of a decision. */
    method ApplyDecision(next: CandidateType)
      requires next in decided
      modifies this
      ensures State() == Step(params, old(State()), Apply(next))
      ensures iceConfig == IceConfig(next, next) && decided == old(decided) - multiset{next}
      ensures isTransportReconfigured <==> old(isTransportReconfigured) || old(iceConfig) != IceConfig(next, next)
    {
      decided := decided - multiset{next};
      var _ := ConfigureIce(IceConfig(next, next), false);
    }

    method OnMediaLossUpdate(loss: nat, recent: bool) returns (escalate: bool)
      requires loss < 256
      modifies this
      ensures State() == LossReported(params, old(State()), loss, recent)
      ensures escalate <==> Escalates(params, old(State()), loss, recent)
    {
      if params.tcpFallbackRttThreshold == 0 || !params.allowUdpUnstableFallback {
        return false;
      }
      udpLossUnstableCount := udpLossUnstableCount * 2 % WORD;
      if loss >= 255 * UDP_LOSS_FRAC_UNSTABLE / 100 {
        udpLossUnstableCount := udpLossUnstableCount + 1;
        if Ones(udpLossUnstableCount) >= UDP_LOSS_UNSTABLE_COUNT_THRESHOLD {
          if udpRtt > 0 && signalingRtt < params.scaled(udpRtt) && signalingRtt < params.tcpFallbackRttThreshold
              && recent {
            udpLossUnstableCount := 0;
            return true;
          }
        }
      }
      escalate := false;
    }
  }

  // ---------------------------------------------------------------------------------------
  // The register is the window of the last 32 reports
  // ---------------------------------------------------------------------------------------

  /** An automatic change of preference. */
  predicate Changes(t: Transport, e: Event) { e.Apply? && e.next in t.decided && t.ice != IceConfig(e.next, e.next) }

  function ReportsAfter(c: Params, t: Transport, e: Event, before: seq<bool>): seq<bool> {
    match e
    case Loss(loss, recent) =>
      if !Watches(c) then before else if Escalates(c, t, loss, recent) then [] else before + [IsUnstable(loss)]
    case Apply(next) => if Changes(t, e) then [] else before
    case ShortReconnect => []
    case SetIce(_) => []
    case _ => before
  }

  /** The reports since the register was last cleared: by a reset, a change of preference or an escalation. */
  function ReportsSince(c: Params, es: seq<Event>): seq<bool> {
    if es == [] then []
    else ReportsAfter(c, Run(c, es[..|es| - 1]), es[|es| - 1], ReportsSince(c, es[..|es| - 1]))
  }

  function LastBits(bits: seq<bool>): seq<bool> { if |bits| <= WORD_BITS then bits else bits[|bits| - WORD_BITS..] }

  function Value(bits: seq<bool>): nat {
    if bits == [] then 0 else Value(bits[..|bits| - 1]) * 2 + if bits[|bits| - 1] then 1 else 0
  }

  function Count(bits: seq<bool>): nat {
    if bits == [] then 0 else Count(bits[..|bits| - 1]) + if bits[|bits| - 1] then 1 else 0
  }

  function Power(n: nat): (p: nat)
    ensures p > 0
  {
    if n == 0 then 1 else 2 * Power(n - 1)
  }

  lemma WordIsPower()
    ensures Power(WORD_BITS) == WORD
  {
    assert Power(8) == 256;
    assert Power(16) == 256 * Power(8);
    assert Power(24) == 256 * Power(16);
    assert Power(32) == 256 * Power(24);
  }

  lemma {:induction false} ValueIsSmall(bits: seq<bool>)
    ensures Value(bits) < Power(|bits|)
  {
    if bits != [] {
      ValueIsSmall(bits[..|bits| - 1]);
    }
  }

  lemma {:induction false} ValueOfRest(bits: seq<bool>)
    requires bits != []
    ensures Value(bits) == Value(bits[1..]) + if bits[0] then Power(|bits| - 1) else 0
  {
    if |bits| > 1 {
      var init := bits[..|bits| - 1];
      ValueOfRest(init);
      assert bits[1..][..|bits[1..]| - 1] == init[1..];
    }
  }

  lemma ShiftFills(last: seq<bool>, bit: bool)
    requires |last| < WORD_BITS
    ensures Shift(Value(last), bit) == Value(last + [bit])
  {
    assert (last + [bit])[..|last|] == last;
    ValueFits(last);
    DropTop(Value(last), Value(last + [bit]), false, bit);
  }

  lemma ValueFits(last: seq<bool>)
    requires |last| < WORD_BITS
    ensures Value(last) * 2 + 1 < WORD
  {
    ValueIsSmall(last);
    PowerGrows(|last| + 1, WORD_BITS);
    WordIsPower();
  }

  lemma ShiftDrops(last: seq<bool>, bit: bool)
    requires |last| == WORD_BITS
    ensures Shift(Value(last), bit) == Value((last + [bit])[1..])
  {
    var longer := last + [bit];
    assert longer[..|last|] == last;
    WordIsPower();
    ValueOfRest(longer);
    ValueIsSmall(longer[1..]);
    DropTop(Value(last), Value(longer[1..]), longer[0], bit);
  }

  /** The register drops the oldest bit of a full window. */
  lemma ShiftIsWindow(bits: seq<bool>, bit: bool)
    ensures Shift(Value(LastBits(bits)), bit) == Value(LastBits(bits + [bit]))
  {
    var last := LastBits(bits);
    if |last| < WORD_BITS {
      ShiftFills(last, bit);
      assert LastBits(bits + [bit]) == last + [bit];
    } else {
      ShiftDrops(last, bit);
      assert LastBits(bits + [bit]) == (last + [bit])[1..];
    }
  }

  lemma DropTop(v: nat, rest: nat, top: bool, bit: bool)
    requires v * 2 + (if bit then 1 else 0) == rest + if top then WORD else 0
    requires rest < WORD
    ensures Shift(v, bit) == rest
  {
  }

  lemma {:induction false} PowerGrows(a: nat, b: nat)
    requires a <= b
    ensures Power(a) <= Power(b)
    decreases b
  {
    if a < b {
      PowerGrows(a, b - 1);
    }
  }

  lemma {:induction false} OnesAreCounted(bits: seq<bool>)
    ensures Ones(Value(bits)) == Count(bits)
  {
    if bits != [] {
      OnesAreCounted(bits[..|bits| - 1]);
    }
  }

  lemma StepKeepsWindow(c: Params, t: Transport, e: Event, before: seq<bool>)
    requires t.unstable == Value(LastBits(before))
    ensures Step(c, t, e).unstable == Value(LastBits(ReportsAfter(c, t, e, before)))
  {
    if e.Loss? {
      ShiftIsWindow(before, IsUnstable(e.loss));
    }
  }

  lemma {:induction false} RegisterHoldsReports(c: Params, es: seq<Event>)
    ensures Run(c, es).unstable == Value(LastBits(ReportsSince(c, es)))
  {
    if es != [] {
      RegisterHoldsReports(c, es[..|es| - 1]);
      StepKeepsWindow(c, Run(c, es[..|es| - 1]), es[|es| - 1], ReportsSince(c, es[..|es| - 1]));
    }
  }

  /**
   After any run the register holds exactly the last 32 reports since it was cleared, and its ones are the
   unstable ones.
   */
  lemma RegisterIsWindow(c: Params, es: seq<Event>)
    ensures Run(c, es).unstable == Value(LastBits(ReportsSince(c, es)))
    ensures Ones(Run(c, es).unstable) == Count(LastBits(ReportsSince(c, es)))
  {
    RegisterHoldsReports(c, es);
    OnesAreCounted(LastBits(ReportsSince(c, es)));
  }

  /**
   The loss path escalates exactly if the path is in use, a quarter of the packets or more was lost, at least 20
   of the last 32 reports since it was reset, this one included, were unstable, and signalling, heard lately, is
   faster than the media path and below the threshold.
   */
  lemma EscalationIsEarned(c: Params, es: seq<Event>, loss: nat, recent: bool)
    ensures var t, window := Run(c, es), LastBits(ReportsSince(c, es) + [true]);
            Escalates(c, t, loss, recent) <==>
              && c.tcpFallbackRttThreshold != 0 && c.allowUdpUnstableFallback && recent
              && loss >= 63 && Count(window) >= 20
              && t.udpRtt > 0 && t.signalingRtt < c.scaled(t.udpRtt) && t.signalingRtt < c.tcpFallbackRttThreshold
  {
    RegisterIsWindow(c, es);
    ShiftIsWindow(ReportsSince(c, es), true);
    OnesAreCounted(LastBits(ReportsSince(c, es) + [true]));
  }

  /** The round-trip times are those reported: the signalling one as it is, the media one smoothed. */
  lemma RttsAreReported(c: Params, es: seq<Event>, e: Event)
    ensures Run(c, es + [e]).signalingRtt == if e.SignalingRtt? then e.rtt else Run(c, es).signalingRtt
    ensures Run(c, es + [e]).udpRtt == if e.MediaRtt? then Smoothed(Run(c, es).udpRtt, e.rtt) else Run(c, es).udpRtt
  {
    assert (es + [e])[..|es|] == es;
  }

  /** A new round-trip time halves the distance from the average, and the average stays on its side. */
  lemma SmoothingHalves(average: nat, rtt: nat)
    ensures average == 0 ==> Smoothed(average, rtt) == rtt
    ensures average != 0 ==> var s := Smoothed(average, rtt);
              if rtt >= average then average <= s <= rtt && rtt - s == (rtt - average + 1) / 2
              else rtt <= s <= average && s - rtt == (average - rtt + 1) / 2
  {
  }

  // ---------------------------------------------------------------------------------------
  // How often the preference changes by itself
  // ---------------------------------------------------------------------------------------

  predicate IsReset(e: Event) { e.ShortReconnect? || e.SetIce? }

  predicate Decides(c: Params, t: Transport, e: Event) { e.Fail? && Decide(c, t, e.f).1.Some? }

  /** Automatic changes since the last reset. */
  function ChangesSince(c: Params, es: seq<Event>): nat {
    if es == [] || IsReset(es[|es| - 1]) then 0
    else ChangesSince(c, es[..|es| - 1]) + if Changes(Run(c, es[..|es| - 1]), es[|es| - 1]) then 1 else 0
  }

  function DecisionsSince(c: Params, es: seq<Event>): nat {
    if es == [] || IsReset(es[|es| - 1]) then 0
    else DecisionsSince(c, es[..|es| - 1]) + if Decides(c, Run(c, es[..|es| - 1]), es[|es| - 1]) then 1 else 0
  }

  /** Decisions that were on their way to configureICE when the last reset came. */
  function CaughtByReset(c: Params, es: seq<Event>): nat {
    if es == [] then 0
    else if IsReset(es[|es| - 1]) then |Run(c, es[..|es| - 1]).decided|
    else CaughtByReset(c, es[..|es| - 1])
  }

  /** What a step does to the flag and to the decisions on their way. */
  lemma StepCounts(c: Params, t: Transport, e: Event)
    ensures var t' := Step(c, t, e);
            && |t'.decided| + (if Changes(t, e) then 1 else 0) <= |t.decided| + (if Decides(c, t, e) then 1 else 0)
            && (Decides(c, t, e) ==> !t.reconfigured && t'.reconfigured)
            && (t.reconfigured && !IsReset(e) ==> t'.reconfigured)
  {
    if e.Apply? && e.next in t.decided {
      assert |t.decided - multiset{e.next}| == |t.decided| - 1;
    }
  }

  /**
   Between resets there is at most one decision, and never more changes than that one and those a reset has
   caught between decision and change. With none caught, at most one automatic change happens.
   */
  lemma {:induction false} AtMostOneChange(c: Params, es: seq<Event>)
    ensures DecisionsSince(c, es) <= if Run(c, es).reconfigured then 1 else 0
    ensures ChangesSince(c, es) + |Run(c, es).decided| <= DecisionsSince(c, es) + CaughtByReset(c, es)
    ensures CaughtByReset(c, es) == 0 ==> ChangesSince(c, es) <= 1
  {
    if es != [] {
      AtMostOneChange(c, es[..|es| - 1]);
      StepCounts(c, Run(c, es[..|es| - 1]), es[|es| - 1]);
    }
  }

  /** An automatic change leaves both preferences equal; they differ only as they were last set. */
  function LastSet(es: seq<Event>): IceConfig {
    if es == [] then IceConfig(Any, Any)
    else if es[|es| - 1].SetIce? then es[|es| - 1].ice
    else LastSet(es[..|es| - 1])
  }

  lemma StepSetsIce(c: Params, t: Transport, e: Event)
    ensures var ice := Step(c, t, e).ice;
            if e.SetIce? then ice == e.ice else ice == t.ice || (e.Apply? && ice == IceConfig(e.next, e.next))
  {
  }

  lemma {:induction false} PreferencesAreEqualOrSet(c: Params, es: seq<Event>)
    ensures Run(c, es).ice.subscriber == Run(c, es).ice.publisher || Run(c, es).ice == LastSet(es)
  {
    if es != [] {
      PreferencesAreEqualOrSet(c, es[..|es| - 1]);
      StepSetsIce(c, Run(c, es[..|es| - 1]), es[|es| - 1]);
    }
  }

  lemma RunThen(c: Params, es: seq<Event>, e: Event)
    ensures Run(c, es + [e]) == Step(c, Run(c, es), e)
    ensures ChangesSince(c, es + [e]) ==
            if IsReset(e) then 0 else ChangesSince(c, es) + if Changes(Run(c, es), e) then 1 else 0
  {
    assert (es + [e])[..|es|] == es;
  }

  const UDP_FAILED := Failure(true, true, Udp, 0)
  const TCP_FAILED := Failure(true, true, TcpConnection, 0)

  predicate AllowsAll(c: Params) {
    c.allowTcpFallback && !c.oneShotSignalling && c.supportsIceTcp && c.tcpFallbackRttThreshold == 0 && c.turnsEnabled
  }

  function TwoDecisions(): seq<Event> { [] + [Fail(UDP_FAILED)] + [ShortReconnect] + [Fail(TCP_FAILED)] }

  lemma TwoDecide(c: Params)
    requires AllowsAll(c)
    ensures Run(c, TwoDecisions()) == Transport(0, None, true, 0, 0, 0, IceConfig(Any, Any), multiset{Tcp, Tls})
    ensures ChangesSince(c, TwoDecisions()) == 0
  {
    var e1 := [] + [Fail(UDP_FAILED)];
    RunThen(c, [], Fail(UDP_FAILED));
    assert Run(c, e1) == Transport(0, None, true, 0, 0, 0, IceConfig(Any, Any), multiset{Tcp});
    RunThen(c, e1, ShortReconnect);
    assert Run(c, e1 + [ShortReconnect]) == Transport(0, None, false, 0, 0, 0, IceConfig(Any, Any), multiset{Tcp});
    RunThen(c, e1 + [ShortReconnect], Fail(TCP_FAILED));
  }

  /** A reset between decision and change lets the preference change twice after it: to TCP, and on to TLS. */
  lemma ResetBetweenAllowsTwo(c: Params)
    requires AllowsAll(c)
    ensures ChangesSince(c, TwoDecisions() + [Apply(Tcp)] + [Apply(Tls)]) == 2
  {
    var es := TwoDecisions();
    TwoDecide(c);
    RunThen(c, es, Apply(Tcp));
    assert multiset{Tcp, Tls} - multiset{Tcp} == multiset{Tls};
    RunThen(c, es + [Apply(Tcp)], Apply(Tls));
  }

  // ---------------------------------------------------------------------------------------
  // Exactly when a reset leaves at most one change to come
  // ---------------------------------------------------------------------------------------

  function Exec(c: Params, t: Transport, es: seq<Event>): Transport {
    if es == [] then t else Step(c, Exec(c, t, es[..|es| - 1]), es[|es| - 1])
  }

  /** Automatic changes over a continuation. */
  function ChangesFrom(c: Params, t: Transport, es: seq<Event>): nat {
    if es == [] then 0
    else ChangesFrom(c, t, es[..|es| - 1]) + if Changes(Exec(c, t, es[..|es| - 1]), es[|es| - 1]) then 1 else 0
  }

  predicate ResetFree(es: seq<Event>) { forall e :: e in es ==> !IsReset(e) }

  /** Some failure, at some signalling round-trip time, can decide on this preference. */
  predicate CanDecide(c: Params, preferred: CandidateType, next: CandidateType) {
    && c.allowTcpFallback && !c.oneShotSignalling && next != preferred
    && match next
       case Any => true
       case Tcp => preferred == Any && c.supportsIceTcp && c.tcpFallbackRttThreshold >= 0
       case Tls => c.turnsEnabled
  }

  lemma DecidedIsPossible(c: Params, t: Transport, f: Failure)
    requires Decide(c, t, f).1.Some?
    ensures CanDecide(c, t.ice.subscriber, Decide(c, t, f).1.value)
  {
  }

  /** The connection type whose failure decides on `next`, once signalling takes no time. */
  function TypeFor(next: CandidateType): ConnectionType {
    match next
    case Any => Unknown
    case Tcp => Udp
    case Tls => TcpConnection
  }

  lemma PossibleIsDecided(c: Params, t: Transport, next: CandidateType)
    requires CanDecide(c, t.ice.subscriber, next) && !t.reconfigured && t.signalingRtt == 0
    ensures Decide(c, t, Failure(true, true, TypeFor(next), 0)).1 == Some(next)
  {
  }

  /**
   All decisions on their way are for one preference, and no other can be decided on. This is what can be
   looked at when a reset comes.
   */
  ghost predicate Single(c: Params, t: Transport) { Alike(t.decided) && NoOther(c, t.decided, t.ice.subscriber) }

  ghost predicate Alike(decided: multiset<CandidateType>) { forall x, y :: x in decided && y in decided ==> x == y }

  ghost predicate NoOther(c: Params, decided: multiset<CandidateType>, preferred: CandidateType) {
    forall x, next :: x in decided && CanDecide(c, preferred, next) ==> next == x
  }

  ghost predicate AllDone(decided: multiset<CandidateType>, ice: IceConfig) {
    forall x :: x in decided ==> ice == IceConfig(x, x)
  }

  /** Where a continuation stands after `n` changes. */
  ghost predicate OneAtMost(c: Params, t: Transport, n: nat) {
    && Alike(t.decided)
    && n <= 1
    && (n == 0 && !t.reconfigured ==> NoOther(c, t.decided, t.ice.subscriber))
    && (n == 1 ==> t.reconfigured && AllDone(t.decided, t.ice))
  }

  lemma FewerDecided(c: Params, decided: multiset<CandidateType>, next: CandidateType, preferred: CandidateType)
    requires Alike(decided) && next in decided
    ensures Alike(decided - multiset{next}) && AllDone(decided - multiset{next}, IceConfig(next, next))
    ensures NoOther(c, decided, preferred) ==> NoOther(c, decided - multiset{next}, preferred)
  {
    assert forall x :: x in decided - multiset{next} ==> x in decided;
  }

  lemma FailStaysOne(c: Params, t: Transport, f: Failure, n: nat)
    requires OneAtMost(c, t, n)
    ensures OneAtMost(c, Step(c, t, Fail(f)), n)
  {
    if Decide(c, t, f).1.Some? {
      DecidedIsPossible(c, t, f);
    }
  }

  lemma ApplyStaysOne(c: Params, t: Transport, next: CandidateType, n: nat)
    requires OneAtMost(c, t, n)
    ensures OneAtMost(c, Step(c, t, Apply(next)), n + if Changes(t, Apply(next)) then 1 else 0)
  {
    if next in t.decided {
      FewerDecided(c, t.decided, next, t.ice.subscriber);
    }
  }

  lemma StepStaysOne(c: Params, t: Transport, e: Event, n: nat)
    requires OneAtMost(c, t, n) && !IsReset(e)
    ensures OneAtMost(c, Step(c, t, e), n + if Changes(t, e) then 1 else 0)
  {
    match e
    case Fail(f) => FailStaysOne(c, t, f, n);
    case Apply(next) => ApplyStaysOne(c, t, next, n);
    case _ =>
  }

  lemma {:induction false} RunStaysOne(c: Params, t: Transport, es: seq<Event>)
    requires !t.reconfigured && Single(c, t) && ResetFree(es)
    ensures OneAtMost(c, Exec(c, t, es), ChangesFrom(c, t, es))
  {
    if es != [] {
      assert es == es[..|es| - 1] + [es[|es| - 1]];
      RunStaysOne(c, t, es[..|es| - 1]);
      StepStaysOne(c, Exec(c, t, es[..|es| - 1]), es[|es| - 1], ChangesFrom(c, t, es[..|es| - 1]));
    }
  }

  lemma ExecThen(c: Params, t: Transport, es: seq<Event>, e: Event)
    ensures Exec(c, t, es + [e]) == Step(c, Exec(c, t, es), e)
    ensures ChangesFrom(c, t, es + [e]) == ChangesFrom(c, t, es) + if Changes(Exec(c, t, es), e) then 1 else 0
  {
    assert (es + [e])[..|es|] == es;
  }

  /** Two different preferences on their way, the first not the one there is, are two changes. */
  lemma TwoApplies(c: Params, t: Transport, es: seq<Event>, x: CandidateType, y: CandidateType)
    requires x != y && var s := Exec(c, t, es); x in s.decided && y in s.decided && s.ice != IceConfig(x, x)
    requires ResetFree(es)
    ensures ResetFree(es + [Apply(x)] + [Apply(y)])
    ensures ChangesFrom(c, t, es + [Apply(x)] + [Apply(y)]) >= 2
  {
    var s := Exec(c, t, es);
    ExecThen(c, t, es, Apply(x));
    ExecThen(c, t, es + [Apply(x)], Apply(y));
    TwoChange(c, s, x, y);
  }

  lemma TwoChange(c: Params, s: Transport, x: CandidateType, y: CandidateType)
    requires x != y && x in s.decided && y in s.decided && s.ice != IceConfig(x, x)
    ensures Changes(s, Apply(x)) && Changes(Step(c, s, Apply(x)), Apply(y))
  {
    assert y in s.decided - multiset{x};
  }

  lemma DecideAnother(c: Params, t: Transport, x: CandidateType, next: CandidateType) returns (es: seq<Event>)
    requires !t.reconfigured && x in t.decided && next != x && CanDecide(c, t.ice.subscriber, next)
    ensures ResetFree(es) && ChangesFrom(c, t, es) >= 2
  {
    var f := Fail(Failure(true, true, TypeFor(next), 0));
    var e1 := [] + [SignalingRtt(0)];
    ExecThen(c, t, [], SignalingRtt(0));
    PossibleIsDecided(c, Exec(c, t, e1), next);
    ExecThen(c, t, e1, f);
    TwoApplies(c, t, e1 + [f], next, x);
    es := e1 + [f] + [Apply(next)] + [Apply(x)];
  }

  /** Otherwise some continuation changes the preference twice. */
  lemma SomeChangeTwice(c: Params, t: Transport) returns (es: seq<Event>)
    requires !t.reconfigured && !Single(c, t)
    ensures ResetFree(es) && ChangesFrom(c, t, es) >= 2
  {
    if x, y :| x in t.decided && y in t.decided && x != y {
      if t.ice == IceConfig(x, x) {
        TwoApplies(c, t, [], y, x);
        es := [] + [Apply(y)] + [Apply(x)];
      } else {
        TwoApplies(c, t, [], x, y);
        es := [] + [Apply(x)] + [Apply(y)];
      }
    } else {
      var x, next :| x in t.decided && CanDecide(c, t.ice.subscriber, next) && next != x;
      es := DecideAnother(c, t, x, next);
    }
  }

  /**
   From a state just after a reset no continuation up to the next reset changes the preference twice, if and
   only if the decisions the reset caught are for one preference and no other can be decided on.
   */
  lemma AtMostOneIffSingle(c: Params, t: Transport)
    requires !t.reconfigured
    ensures (forall es :: ResetFree(es) ==> ChangesFrom(c, t, es) <= 1) <==> Single(c, t)
  {
    if Single(c, t) {
      forall es | ResetFree(es)
        ensures ChangesFrom(c, t, es) <= 1
      {
        RunStaysOne(c, t, es);
      }
    } else {
      var es := SomeChangeTwice(c, t);
    }
  }

  /** Where every fallback is allowed, that is: only decisions back to any type, while the preference is TLS. */
  lemma SingleWhereAllIsAllowed(c: Params, t: Transport)
    requires AllowsAll(c)
    ensures Single(c, t) <==> forall x :: x in t.decided ==> x == Any && t.ice.subscriber == Tls
  {
    var preferred := t.ice.subscriber;
    if Single(c, t) {
      forall x | x in t.decided
        ensures x == Any && preferred == Tls
      {
        assert preferred == Any ==> CanDecide(c, preferred, Tcp) && CanDecide(c, preferred, Tls);
        assert preferred != Any ==> CanDecide(c, preferred, Any);
        assert preferred == Tcp ==> CanDecide(c, preferred, Tls);
      }
    }
  }

  /** A reset leaves the manager free to decide again, and the decisions on their way as they were. */
  lemma ResetFrees(c: Params, es: seq<Event>, e: Event)
    requires IsReset(e)
    ensures !Run(c, es + [e]).reconfigured && Run(c, es + [e]).decided == Run(c, es).decided
    ensures Run(c, es + [e]).ice == if e.SetIce? then e.ice else Run(c, es).ice
  {
    RunThen(c, es, e);
  }

  /**
   After any run and a reset no continuation up to the next reset changes the preference twice, if and only if
   the decisions on their way when the reset came are for one preference, and no other can be decided on from
   the preference the reset leaves.
   */
  lemma AtMostOneAfterReset(c: Params, es: seq<Event>, e: Event)
    requires IsReset(e)
    ensures var decided, ice := Run(c, es).decided, if e.SetIce? then e.ice else Run(c, es).ice;
            (forall more :: ResetFree(more) ==> ChangesFrom(c, Run(c, es + [e]), more) <= 1)
            <==> Alike(decided) && NoOther(c, decided, ice.subscriber)
  {
    ResetFrees(c, es, e);
    AtMostOneIffSingle(c, Run(c, es + [e]));
  }

  // ---------------------------------------------------------------------------------------
  // What is decided, and on what grounds
  // ---------------------------------------------------------------------------------------

  function FailuresAfter(c: Params, t: Transport, e: Event, before: seq<nat>): seq<nat> {
    match e
    case Fail(f) =>
      if !Considers(c, t) then before else if !f.signal then [] else if f.short then before else before + [f.now]
    case Apply(next) => if Changes(t, e) then [] else before
    case ShortReconnect => []
    case SetIce(_) => []
    case _ => before
  }

  /** When the long-lived failures happened that counted since the count was last cleared. */
  function FailuresSince(c: Params, es: seq<Event>): seq<nat> {
    if es == [] then []
    else FailuresAfter(c, Run(c, es[..|es| - 1]), es[|es| - 1], FailuresSince(c, es[..|es| - 1]))
  }

  predicate Counts(t: Transport, fs: seq<nat>) {
    t.failureCount == |fs| && t.lastFailure == if fs == [] then None else Some(fs[|fs| - 1])
  }

  lemma StepCountsFailures(c: Params, t: Transport, e: Event, before: seq<nat>)
    requires Counts(t, before)
    ensures Counts(Step(c, t, e), FailuresAfter(c, t, e, before))
  {
  }

  lemma {:induction false} FailuresAreCounted(c: Params, es: seq<Event>)
    ensures Counts(Run(c, es), FailuresSince(c, es))
  {
    if es != [] {
      FailuresAreCounted(c, es[..|es| - 1]);
      StepCountsFailures(c, Run(c, es[..|es| - 1]), es[|es| - 1], FailuresSince(c, es[..|es| - 1]));
    }
  }

  // ---------------------------------------------------------------------------------------
  // Exactly when a failure leads to a decision, and to which
  // ---------------------------------------------------------------------------------------

  lemma StepReconfigures(c: Params, t: Transport, e: Event)
    ensures Step(c, t, e).reconfigured <==> !IsReset(e) && (t.reconfigured || Decides(c, t, e) || Changes(t, e))
  {
  }

  /** The flag tells whether the preference was decided on or changed since the last reset. */
  lemma {:induction false} ReconfiguredIff(c: Params, es: seq<Event>)
    ensures Run(c, es).reconfigured <==> DecisionsSince(c, es) > 0 || ChangesSince(c, es) > 0
  {
    if es != [] {
      ReconfiguredIff(c, es[..|es| - 1]);
      StepReconfigures(c, Run(c, es[..|es| - 1]), es[|es| - 1]);
    }
  }

  /** TCP can be used by the client, and signalling over it is fast enough, if that matters. */
  predicate TcpIsAnOption(c: Params, signalingRtt: nat) {
    c.supportsIceTcp && (c.tcpFallbackRttThreshold != 0 ==> signalingRtt < c.tcpFallbackRttThreshold)
  }

  /**
   Where a failed connection falls back to: from UDP without a preference to TCP, or where that is no option to
   TLS; from TCP to TLS; with a preference, or of an unknown type, back to any type; from TURN nowhere.
   */
  predicate FallsBackTo(c: Params, preferred: CandidateType, signalingRtt: nat, lowest: ConnectionType,
      next: CandidateType) {
    && next != preferred
    && match next
       case Tcp => lowest == Udp && preferred == Any && TcpIsAnOption(c, signalingRtt)
       case Tls => c.turnsEnabled && (|| lowest == TcpConnection
                                      || (lowest == Udp && preferred == Any && !TcpIsAnOption(c, signalingRtt)))
       case Any => lowest == Udp || lowest == Unknown
  }

  lemma GetNextFallsBack(c: Params, preferred: CandidateType, signalingRtt: nat, lowest: ConnectionType)
    ensures var next := GetNext(c, preferred, signalingRtt, lowest);
            next == preferred || FallsBackTo(c, preferred, signalingRtt, lowest, next)
    ensures forall next :: FallsBackTo(c, preferred, signalingRtt, lowest, next) ==>
              next == GetNext(c, preferred, signalingRtt, lowest)
  {
  }

  lemma DecideIff(c: Params, t: Transport, f: Failure, next: CandidateType)
    ensures Decide(c, t, f).1 == Some(next) <==>
              && c.allowTcpFallback && !c.oneShotSignalling && f.signal && !t.reconfigured
              && (f.short || (t.failureCount > 0 && t.lastFailure.Some?
                              && f.now - t.lastFailure.value <= 60_000_000_000))
              && next != t.ice.subscriber && next == GetNext(c, t.ice.subscriber, t.signalingRtt, f.lowest)
  {
  }

  /**
   In every run a failure leads to a decision for a preference exactly if fallback is allowed, the preference was
   neither decided on nor changed since the last reset, signalling is alive, the connection was short or another
   failure was counted within the minute before, and that is where the connection falls back to.
   */
  lemma DecidesIff(c: Params, es: seq<Event>, f: Failure, next: CandidateType)
    ensures var t, fs := Run(c, es), FailuresSince(c, es);
            Decide(c, t, f).1 == Some(next) <==>
              && c.allowTcpFallback && !c.oneShotSignalling && f.signal
              && DecisionsSince(c, es) == 0 && ChangesSince(c, es) == 0
              && (f.short || (fs != [] && f.now - fs[|fs| - 1] <= 60_000_000_000))
              && FallsBackTo(c, t.ice.subscriber, t.signalingRtt, f.lowest, next)
  {
    ReconfiguredIff(c, es);
    FailuresAreCounted(c, es);
    DecideIff(c, Run(c, es), f, next);
    GetNextFallsBack(c, Run(c, es).ice.subscriber, Run(c, es).signalingRtt, f.lowest);
  }
}
