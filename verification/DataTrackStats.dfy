/**
 Loss counting of a data track over 16-bit sequence numbers. For packets numbered without wrap-around the
 count is shown to be that of the numbers still missing.
 */
module DataTrackStats {
  const MODULUS: nat := 0x1_0000
  const HALF: nat := 0x8000

  datatype Stats = Stats(startTime: int, endTime: int, highest: nat, packets: int, lost: int, outOfOrder: int,
      frames: int, bytes: int)

  const NEW: Stats := Stats(0, 0, 0, 0, 0, 0, 0, 0)

  type Seq16 = n: nat | n < MODULUS

  datatype Packet = Packet(sequenceNumber: Seq16, isFinalOfFrame: bool)

  /** Subtraction of uint16. */
  function Minus(a: nat, b: nat): nat { (a - b) % MODULUS }

  /** The first packet counted; anything before Close while the start time is zero counts as the first. */
  function First(s: Stats, p: Packet, arrival: int): Stats {
    s.(startTime := arrival, highest := p.sequenceNumber, packets := 1)
  }

  function Late(s: Stats): Stats {
    s.(packets := s.packets + 1, outOfOrder := s.outOfOrder + 1, lost := if s.lost > 0 then s.lost - 1 else s.lost)
  }

  function Ahead(s: Stats, p: Packet): Stats {
    s.(packets := s.packets + 1, lost := s.lost + Minus(p.sequenceNumber, s.highest) - 1, highest := p.sequenceNumber)
  }

  function Framed(s: Stats, p: Packet): Stats { if p.isFinalOfFrame then s.(frames := s.frames + 1) else s }

  function Updated(s: Stats, p: Packet, arrival: int, length: int): Stats {
    var s1 := s.(bytes := s.bytes + length);
    if s.endTime != 0 then s1
    else if s.startTime == 0 then Framed(First(s1, p, arrival), p)
    else if Minus(p.sequenceNumber, s.highest) == 0 then s1
    else if Minus(p.sequenceNumber, s.highest) > HALF then Framed(Late(s1), p)
    else Framed(Ahead(s1, p), p)
  }

  class DataTrackStats {
    var startTime: int
    var endTime: int
    var highestSequenceNumber: nat
    var numPackets: int
    var numPacketsLost: int
    var numPacketsOutOfOrder: int
    var numFrames: int
    var numBytes: int

    ghost function State(): Stats
      reads this
    {
      Stats(startTime, endTime, highestSequenceNumber, numPackets, numPacketsLost, numPacketsOutOfOrder, numFrames,
          numBytes)
    }

    constructor ()
      ensures State() == NEW
    {
      startTime, endTime, highestSequenceNumber := 0, 0, 0;
      numPackets, numPacketsLost, numPacketsOutOfOrder, numFrames, numBytes := 0, 0, 0, 0, 0;
    }

    method Update(packet: Packet, arrivalTime: int, payloadLength: int)
      modifies this
      ensures State() == Updated(old(State()), packet, arrivalTime, payloadLength)
      ensures numBytes == old(numBytes) + payloadLength && endTime == old(endTime)
      ensures endTime == 0 && old(startTime) == 0 ==>
                && startTime == arrivalTime && highestSequenceNumber == packet.sequenceNumber && numPackets == 1
                && numPacketsLost == old(numPacketsLost) && numPacketsOutOfOrder == old(numPacketsOutOfOrder)
      ensures endTime == 0 && old(startTime) != 0 ==>
                var diff := (packet.sequenceNumber - old(highestSequenceNumber)) % 0x1_0000;
                var late, ahead := diff > 0x8000, 0 < diff <= 0x8000;
                && startTime == old(startTime) && numPackets == old(numPackets) + (if diff == 0 then 0 else 1)
                && numPacketsOutOfOrder == old(numPacketsOutOfOrder) + (if late then 1 else 0)
                && numPacketsLost == old(numPacketsLost) + (if ahead then diff - 1
                                                            else if late && old(numPacketsLost) > 0 then -1 else 0)
                && highestSequenceNumber == if ahead then packet.sequenceNumber else old(highestSequenceNumber)
      ensures var same := (packet.sequenceNumber - old(highestSequenceNumber)) % 0x1_0000 == 0;
              numFrames == old(numFrames) +
                if packet.isFinalOfFrame && endTime == 0 && !(old(startTime) != 0 && same) then 1 else 0
    {
      numBytes := numBytes + payloadLength;
      if endTime != 0 {
        return;
      }
      if startTime == 0 {
        startTime := arrivalTime;
        highestSequenceNumber := packet.sequenceNumber;
        numPackets := 1;
      } else {
        var diff := Minus(packet.sequenceNumber, highestSequenceNumber);
        if diff == 0 {
          return;
        } else if diff > HALF {
          numPackets := numPackets + 1;
          numPacketsOutOfOrder := numPacketsOutOfOrder + 1;
          if numPacketsLost > 0 {
            numPacketsLost := numPacketsLost - 1;
          }
        } else {
          numPackets := numPackets + 1;
          numPacketsLost := numPacketsLost + diff - 1;
          highestSequenceNumber := packet.sequenceNumber;
        }
      }
      if packet.isFinalOfFrame {
        numFrames := numFrames + 1;
      }
    }

    method Close(now: int)
      modifies this
      ensures State() == old(State()).(endTime := now)
    {
      endTime := now;
    }
  }

  // ---------------------------------------------------------------------------------------
  // Runs
  // ---------------------------------------------------------------------------------------

  datatype Arrival = Arrival(packet: Packet, at: int, length: int)

  function Run(es: seq<Arrival>): Stats {
    if es == [] then NEW
    else
      var e := es[|es| - 1];
      Updated(Run(es[..|es| - 1]), e.packet, e.at, e.length)
  }

  // ---------------------------------------------------------------------------------------
  // Exact counting
  // ---------------------------------------------------------------------------------------

  /** A packet by its number without wrap-around. */
  datatype Numbered = Numbered(n: int, isFinalOfFrame: bool, at: int, length: int)

  function Wrapped(x: Numbered): Arrival { Arrival(Packet(x.n % MODULUS, x.isFinalOfFrame), x.at, x.length) }

  function Wire(xs: seq<Numbered>): seq<Arrival> {
    if xs == [] then [] else Wire(xs[..|xs| - 1]) + [Wrapped(xs[|xs| - 1])]
  }

  function Highest(xs: seq<Numbered>): int
    requires xs != []
  {
    if |xs| == 1 || Highest(xs[..|xs| - 1]) < xs[|xs| - 1].n then xs[|xs| - 1].n else Highest(xs[..|xs| - 1])
  }

  predicate Arrived(xs: seq<Numbered>, n: int) { exists x :: x in xs && x.n == n }

  /** The numbers from the first to the highest that have not arrived. */
  function Missing(xs: seq<Numbered>): set<int>
    requires xs != []
  {
    set n | xs[0].n <= n <= Highest(xs) && !Arrived(xs, n)
  }

  /**
   Each number at or after the first arrives at most once, less than half the space behind the highest so
   far or at most half ahead of it, and the first arrives at a time other than zero.
   */
  predicate InHalf(xs: seq<Numbered>) {
    xs == [] ||
    var x, before := xs[|xs| - 1], xs[..|xs| - 1];
    InHalf(before) &&
    if before == [] then x.at != 0
    else x.n >= xs[0].n && !Arrived(before, x.n) && -(HALF as int) < x.n - Highest(before) <= HALF
  }

  lemma WireLast(xs: seq<Numbered>)
    requires xs != []
    ensures Wire(xs) != [] && Wire(xs)[|Wire(xs)| - 1] == Wrapped(xs[|xs| - 1])
    ensures Wire(xs)[..|Wire(xs)| - 1] == Wire(xs[..|xs| - 1])
  {
  }

  /** The 16-bit difference of two numbers less than half the space apart tells which is ahead, and by how much. */
  lemma Difference(n: int, h: int)
    requires -(HALF as int) < n - h <= HALF
    ensures Minus(n % MODULUS, h % MODULUS) == if n >= h then n - h else n - h + MODULUS
  {
    assert (n % MODULUS - h % MODULUS) % MODULUS == (n - h) % MODULUS;
  }

  function Interval(lo: int, hi: int): (r: set<int>)
    ensures forall n :: n in r <==> lo <= n < hi
    ensures |r| == if lo < hi then hi - lo else 0
    decreases hi - lo
  {
    if lo < hi then Interval(lo, hi - 1) + {hi - 1} else {}
  }

  lemma ArrivedNext(before: seq<Numbered>, x: Numbered, n: int)
    ensures Arrived(before + [x], n) <==> Arrived(before, n) || n == x.n
  {
    assert x in before + [x];
  }

  lemma {:induction false} HighestIsHighest(xs: seq<Numbered>, n: int)
    requires xs != [] && Arrived(xs, n)
    ensures n <= Highest(xs)
  {
    var before := xs[..|xs| - 1];
    assert xs == before + [xs[|xs| - 1]];
    ArrivedNext(before, xs[|xs| - 1], n);
    if before != [] && Arrived(before, n) {
      HighestIsHighest(before, n);
    }
  }

  /** A packet ahead adds the numbers it skips to the missing ones. */
  lemma MissingAhead(before: seq<Numbered>, x: Numbered)
    requires before != [] && x.n > Highest(before) >= before[0].n
    ensures |Missing(before + [x])| == |Missing(before)| + x.n - Highest(before) - 1
  {
    var xs, h := before + [x], Highest(before);
    assert xs[..|xs| - 1] == before;
    var skipped := Interval(h + 1, x.n);
    forall n
      ensures n in Missing(xs) <==> n in Missing(before) || n in skipped
    {
      ArrivedNext(before, x, n);
      if Arrived(before, n) {
        HighestIsHighest(before, n);
      }
    }
    assert Missing(xs) == Missing(before) + skipped && Missing(before) !! skipped;
  }

  /** A late packet was missing, and is no more. */
  lemma MissingLate(before: seq<Numbered>, x: Numbered)
    requires before != [] && before[0].n <= x.n <= Highest(before) && !Arrived(before, x.n)
    ensures x.n in Missing(before) && Missing(before + [x]) == Missing(before) - {x.n}
  {
    var xs := before + [x];
    assert xs[..|xs| - 1] == before;
    forall n
      ensures n in Missing(xs) <==> n in Missing(before) && n != x.n
    {
      ArrivedNext(before, x, n);
    }
  }

  /** What is to be shown of the counters. */
  ghost predicate Exact(xs: seq<Numbered>, s: Stats)
    requires xs != []
  {
    && s.startTime != 0 && s.endTime == 0 && s.highest == Highest(xs) % MODULUS
    && s.lost == |Missing(xs)| && s.packets == |xs| && Highest(xs) >= xs[0].n
  }

  lemma StepIsExact(before: seq<Numbered>, x: Numbered, s: Stats)
    requires before != [] && InHalf(before + [x]) && Exact(before, s)
    ensures Exact(before + [x], Updated(s, Wrapped(x).packet, x.at, x.length))
  {
    var xs := before + [x];
    assert xs[..|xs| - 1] == before;
    Difference(x.n, Highest(before));
    if x.n > Highest(before) {
      MissingAhead(before, x);
    } else {
      assert x.n != Highest(before) by {
        HighestArrived(before);
      }
      MissingLate(before, x);
    }
  }

  lemma {:induction false} HighestArrived(xs: seq<Numbered>)
    requires xs != []
    ensures Arrived(xs, Highest(xs))
  {
    var before := xs[..|xs| - 1];
    assert xs == before + [xs[|xs| - 1]];
    ArrivedNext(before, xs[|xs| - 1], Highest(xs));
    if |xs| > 1 {
      HighestArrived(before);
    }
  }

  /** Within half the space, the count of losses is the number of missing packets, through any wrap-arounds. */
  lemma {:induction false} LossIsExact(xs: seq<Numbered>)
    requires xs != [] && InHalf(xs)
    ensures Exact(xs, Run(Wire(xs)))
  {
    var x, before := xs[|xs| - 1], xs[..|xs| - 1];
    WireLast(xs);
    assert xs == before + [x];
    if before == [] {
      assert Wire(before) == [];
      assert x in xs;
      assert Missing(xs) == {};
    } else {
      LossIsExact(before);
      StepIsExact(before, x, Run(Wire(before)));
    }
  }

  // ---------------------------------------------------------------------------------------
  // Exactly when the losses stay exact
  // ---------------------------------------------------------------------------------------

  /** The losses are the numbers missing, and the highest number is known. */
  ghost predicate LossesExact(xs: seq<Numbered>, s: Stats)
    requires xs != []
  {
    && s.startTime != 0 && s.endTime == 0 && Highest(xs) >= xs[0].n
    && s.highest == Highest(xs) % MODULUS && s.lost == |Missing(xs)|
  }

  /** A number behind the highest that is not among the missing: it has arrived before, or comes before the first. */
  predicate NotMissed(before: seq<Numbered>, x: Numbered)
    requires before != []
  {
    x.n < Highest(before) && (Arrived(before, x.n) || x.n < before[0].n)
  }

  /** Half the space behind the highest; or not among the missing, while something is missing. */
  predicate Miscounts(before: seq<Numbered>, x: Numbered)
    requires before != []
  {
    x.n - Highest(before) == -(HALF as int) || (NotMissed(before, x) && Missing(before) != {})
  }

  /** A packet that was not missed, or is a copy of the highest, changes neither what is missing nor what is highest. */
  lemma MissingSame(before: seq<Numbered>, x: Numbered)
    requires before != [] && (x.n == Highest(before) || NotMissed(before, x))
    ensures Highest(before + [x]) == Highest(before) && Missing(before + [x]) == Missing(before)
  {
    var xs := before + [x];
    assert xs[..|xs| - 1] == before;
    HighestArrived(before);
    forall n
      ensures n in Missing(xs) <==> n in Missing(before)
    {
      ArrivedNext(before, x, n);
    }
  }

  lemma HalfBehind(n: int, h: int)
    requires n - h == -(HALF as int)
    ensures Minus(n % MODULUS, h % MODULUS) == HALF && n % MODULUS != h % MODULUS
  {
    assert (n % MODULUS - h % MODULUS) % MODULUS == (n - h) % MODULUS;
  }

  /** A packet behind the highest, less than half the space: taken for one that was missing. */
  lemma LateIsExactIff(before: seq<Numbered>, x: Numbered, s: Stats)
    requires before != [] && LossesExact(before, s) && x.n < Highest(before) < x.n + HALF
    ensures LossesExact(before + [x], Updated(s, Wrapped(x).packet, x.at, x.length)) <==> !Miscounts(before, x)
  {
    assert (before + [x])[..|before|] == before;
    Difference(x.n, Highest(before));
    if NotMissed(before, x) {
      MissingSame(before, x);
    } else {
      MissingLate(before, x);
    }
  }

  lemma AheadIsExact(before: seq<Numbered>, x: Numbered, s: Stats)
    requires before != [] && LossesExact(before, s) && 0 < x.n - Highest(before) <= HALF
    ensures LossesExact(before + [x], Updated(s, Wrapped(x).packet, x.at, x.length))
  {
    assert (before + [x])[..|before|] == before;
    Difference(x.n, Highest(before));
    MissingAhead(before, x);
  }

  lemma CopyOfHighestIsExact(before: seq<Numbered>, x: Numbered, s: Stats)
    requires before != [] && LossesExact(before, s) && x.n == Highest(before)
    ensures LossesExact(before + [x], Updated(s, Wrapped(x).packet, x.at, x.length))
  {
    Difference(x.n, Highest(before));
    MissingSame(before, x);
  }

  lemma HalfBehindIsInexact(before: seq<Numbered>, x: Numbered, s: Stats)
    requires before != [] && LossesExact(before, s) && x.n - Highest(before) == -(HALF as int)
    ensures !LossesExact(before + [x], Updated(s, Wrapped(x).packet, x.at, x.length))
  {
    assert (before + [x])[..|before|] == before;
    HalfBehind(x.n, Highest(before));
  }

  lemma StepIsExactIff(before: seq<Numbered>, x: Numbered, s: Stats)
    requires before != [] && LossesExact(before, s) && -(HALF as int) <= x.n - Highest(before) <= HALF
    ensures LossesExact(before + [x], Updated(s, Wrapped(x).packet, x.at, x.length)) <==> !Miscounts(before, x)
  {
    var h := Highest(before);
    if x.n > h {
      AheadIsExact(before, x, s);
    } else if x.n == h {
      CopyOfHighestIsExact(before, x, s);
    } else if x.n - h > -(HALF as int) {
      LateIsExactIff(before, x, s);
    } else {
      HalfBehindIsInexact(before, x, s);
    }
  }

  /** Each number is at most half the space from the highest so far: copies, and numbers before the first, too. */
  predicate AtMostHalf(xs: seq<Numbered>) {
    xs == [] ||
    var x, before := xs[|xs| - 1], xs[..|xs| - 1];
    AtMostHalf(before) && if before == [] then x.at != 0 else -(HALF as int) <= x.n - Highest(before) <= HALF
  }

  predicate NeverMiscounts(xs: seq<Numbered>) {
    |xs| <= 1 || (NeverMiscounts(xs[..|xs| - 1]) && !Miscounts(xs[..|xs| - 1], xs[|xs| - 1]))
  }

  // ---------------------------------------------------------------------------------------
  // Any arrivals at all
  // ---------------------------------------------------------------------------------------

  /** Numbers without wrap-around, each the one nearest to the highest before it. */
  predicate Nearest(xs: seq<Numbered>) {
    xs == [] ||
    var x, before := xs[|xs| - 1], xs[..|xs| - 1];
    Nearest(before) && if before == [] then x.at != 0 else -(HALF as int) < x.n - Highest(before) <= HALF
  }

  /** The number nearest to `h` that wraps to `n`. */
  function Nearby(n: Seq16, h: int): (r: int)
    ensures r % MODULUS == n && -(HALF as int) < r - h <= HALF
  {
    var d := Minus(n, h % MODULUS);
    NearbyWraps(n, h);
    if d <= HALF then h + d else h + d - MODULUS
  }

  lemma NearbyWraps(n: Seq16, h: int)
    ensures (h + Minus(n, h % MODULUS)) % MODULUS == n && (h + Minus(n, h % MODULUS) - MODULUS) % MODULUS == n
  {
  }

  /** Whatever arrives can be numbered so, from the first arrival at a time other than zero on. */
  lemma {:induction false} ArrivalsAreNumbered(es: seq<Arrival>) returns (start: seq<Arrival>, xs: seq<Numbered>)
    ensures es == start + Wire(xs) && Nearest(xs) && forall e :: e in start ==> e.at == 0
  {
    if es == [] {
      start, xs := [], [];
    } else {
      var e := es[|es| - 1];
      start, xs := ArrivalsAreNumbered(es[..|es| - 1]);
      if xs == [] && e.at == 0 {
        start := start + [e];
      } else {
        var n := if xs == [] then e.packet.sequenceNumber else Nearby(e.packet.sequenceNumber, Highest(xs));
        var x := Numbered(n, e.packet.isFinalOfFrame, e.at, e.length);
        assert (xs + [x])[..|xs|] == xs;
        assert Wrapped(x) == e;
        xs := xs + [x];
      }
    }
  }

  /** Before such an arrival nothing is counted as lost. */
  lemma {:induction false} NothingStarts(start: seq<Arrival>)
    requires forall e :: e in start ==> e.at == 0
    ensures var s := Run(start); s.startTime == 0 && s.endTime == 0 && s.lost == 0
  {
    if start != [] {
      NothingStarts(start[..|start| - 1]);
    }
  }

  ghost predicate Covers(xs: seq<Numbered>, s: Stats)
    requires xs != []
  {
    && s.startTime != 0 && s.endTime == 0 && s.lost >= 0 && s.highest == Highest(xs) % MODULUS
    && s.packets + s.lost >= Highest(xs) - xs[0].n + 1
  }

  lemma StepCovers(before: seq<Numbered>, x: Numbered, s: Stats)
    requires before != [] && Covers(before, s) && -(HALF as int) < x.n - Highest(before) <= HALF
    ensures Covers(before + [x], Updated(s, Wrapped(x).packet, x.at, x.length))
  {
    assert (before + [x])[..|before|] == before;
    Difference(x.n, Highest(before));
  }

  /**
   Whatever arrives, packets and losses together are never fewer than the span of the numbers, from the first
   counted to the highest. With `ArrivalsAreNumbered` this says something of every run.
   */
  lemma {:induction false} SpanIsCovered(start: seq<Arrival>, xs: seq<Numbered>)
    requires xs != [] && Nearest(xs) && forall e :: e in start ==> e.at == 0
    ensures Covers(xs, Run(start + Wire(xs)))
  {
    var x, before := xs[|xs| - 1], xs[..|xs| - 1];
    RunLast(start, xs);
    if before == [] {
      NothingStarts(start);
      assert start + Wire(before) == start;
    } else {
      SpanIsCovered(start, before);
      assert xs == before + [x];
      StepCovers(before, x, Run(start + Wire(before)));
    }
  }

  // ---------------------------------------------------------------------------------------
  // Exact throughout
  // ---------------------------------------------------------------------------------------

  /** The arrivals of `start` come at time zero, and are not counted. */
  ghost predicate AlwaysExact(start: seq<Arrival>, xs: seq<Numbered>) {
    xs == [] || (LossesExact(xs, Run(start + Wire(xs))) && AlwaysExact(start, xs[..|xs| - 1]))
  }

  lemma FirstIsExact(start: seq<Arrival>, x: Numbered)
    requires x.at != 0 && forall e :: e in start ==> e.at == 0
    ensures LossesExact([x], Run(start + Wire([x])))
  {
    WireLast([x]);
    assert [x][..0] == [] && Wire([x][..0]) == [];
    assert (start + Wire([x]))[..|start|] == start;
    NothingStarts(start);
    assert x in [x];
    assert Missing([x]) == {};
  }

  lemma RunLast(start: seq<Arrival>, xs: seq<Numbered>)
    requires xs != []
    ensures var x := xs[|xs| - 1];
            Run(start + Wire(xs)) == Updated(Run(start + Wire(xs[..|xs| - 1])), Wrapped(x).packet, x.at, x.length)
  {
    var es := start + Wire(xs);
    WireLast(xs);
    assert es[..|es| - 1] == start + Wire(xs[..|xs| - 1]) && es[|es| - 1] == Wrapped(xs[|xs| - 1]);
  }

  /**
   Of packets never further than half the space from the highest the losses are exact throughout, if and only if
   no packet comes exactly half the space behind, and none comes that was not missed (a second copy of an older
   one, or one numbered before the first) while something is missing.
   */
  lemma {:induction false} LossStaysExactIff(start: seq<Arrival>, xs: seq<Numbered>)
    requires AtMostHalf(xs) && forall e :: e in start ==> e.at == 0
    ensures AlwaysExact(start, xs) <==> NeverMiscounts(xs)
  {
    if |xs| == 1 {
      assert xs == [xs[0]];
      FirstIsExact(start, xs[0]);
      assert xs[..0] == [];
    } else if xs != [] {
      var before, x := xs[..|xs| - 1], xs[|xs| - 1];
      LossStaysExactIff(start, before);
      RunLast(start, xs);
      assert xs == before + [x];
      if AlwaysExact(start, before) {
        StepIsExactIff(before, x, Run(start + Wire(before)));
      }
    }
  }

  lemma {:induction false} NearestIsAtMostHalf(xs: seq<Numbered>)
    requires Nearest(xs)
    ensures AtMostHalf(xs)
  {
    if xs != [] {
      NearestIsAtMostHalf(xs[..|xs| - 1]);
    }
  }

  /** So any arrivals, each numbered nearest to the highest before it, are counted exactly under that condition. */
  lemma AnyArrivalsExactIff(es: seq<Arrival>) returns (start: seq<Arrival>, xs: seq<Numbered>)
    ensures es == start + Wire(xs) && Nearest(xs) && forall e :: e in start ==> e.at == 0
    ensures AlwaysExact(start, xs) <==> NeverMiscounts(xs)
  {
    start, xs := ArrivalsAreNumbered(es);
    NearestIsAtMostHalf(xs);
    LossStaysExactIff(start, xs);
  }

  // ---------------------------------------------------------------------------------------
  // Outside those bounds
  // ---------------------------------------------------------------------------------------

  lemma RunThen(es: seq<Arrival>, e: Arrival)
    ensures Run(es + [e]) == Updated(Run(es), e.packet, e.at, e.length)
  {
    assert (es + [e])[..|es|] == es;
  }

  function At(n: nat): Arrival { Arrival(Packet(n % MODULUS, false), 1, 0) }

  /** A packet exactly half the space behind passes for one ahead: number 1, at last, turns 32767 losses into 65534. */
  lemma HalfBehindMiscounts()
    ensures Run([] + [At(0)] + [At(2)] + [At(32769)] + [At(1)]).lost == 65534
  {
    RunThen([], At(0));
    RunThen([] + [At(0)], At(2));
    RunThen([] + [At(0)] + [At(2)], At(32769));
    RunThen([] + [At(0)] + [At(2)] + [At(32769)], At(1));
  }

  /** A second copy of a packet other than the highest passes for one that was missing: number 2 is never seen. */
  lemma CopyHidesLoss()
    ensures Run([] + [At(0)] + [At(1)] + [At(3)] + [At(1)]).lost == 0
  {
    RunThen([], At(0));
    RunThen([] + [At(0)], At(1));
    RunThen([] + [At(0)] + [At(1)], At(3));
    RunThen([] + [At(0)] + [At(1)] + [At(3)], At(1));
  }

  /** A packet numbered before the first passes for a missing one: of numbers 10, 12 and 9, 11 is never seen. */
  lemma EarlierHidesLoss()
    ensures Run([] + [At(10)] + [At(12)] + [At(9)]).lost == 0
  {
    RunThen([], At(10));
    RunThen([] + [At(10)], At(12));
    RunThen([] + [At(10)] + [At(12)], At(9));
  }
}
