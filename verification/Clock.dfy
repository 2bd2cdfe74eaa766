/** pkg/sync/clock.go and the burst loop of pkg/sendspin/receiver.go that feeds it. */
module Clocks {
  import opened Numbers
  import opened Options
  import opened Kalman
  import opened TimeFilters
  import opened FilterRuns

  // ---------------------------------------------------------------- measurements

  /** One exchange: sent at t1 and received at t4 on the client clock, t2 and t3 on the server clock. */
  datatype Exchange = Exchange(t1: int, t2: int, t3: int, t4: int)

  function RoundTrip(x: Exchange): int { (x.t4 - x.t1) - (x.t3 - x.t2) }

  function Measure(x: Exchange): Sample {
    Sample(TruncDiv((x.t2 - x.t1) + (x.t3 - x.t4), 2), TruncDiv(RoundTrip(x), 2), x.t4)
  }

  /** The server clock is `theta` ahead and neither direction of the exchange took negative time. */
  ghost predicate Honest(x: Exchange, theta: real) {
    x.t2 as real - theta >= x.t1 as real && x.t4 as real >= x.t3 as real - theta
  }

  /** The offset bound of section 8 of RFC 5905, with both divisions truncated. */
  lemma NtpBound(x: Exchange, theta: real)
    requires Honest(x, theta)
    ensures RoundTrip(x) >= 0
    ensures -(Measure(x).maxError + 1) as real
         <= Measure(x).measurement as real - theta <= (Measure(x).maxError + 1) as real
  {
    var out, back := x.t2 as real - theta - x.t1 as real, x.t4 as real - x.t3 as real + theta;
    assert RoundTrip(x) as real == out + back;
    assert ((x.t2 - x.t1) + (x.t3 - x.t4)) as real == 2.0 * theta + out - back;
  }

  /**
   The bound is as tight as the exchange allows: an offset is possible if and only if it is within half the round trip
   of the exact midpoint, so whatever is within maxError - 1 of the measurement is possible. The sample is taken at t4.
   */
  lemma HonestIff(x: Exchange, theta: real)
    ensures Honest(x, theta) <==>
      -((x.t4 - x.t1) - (x.t3 - x.t2)) as real <= 2.0 * theta - ((x.t2 - x.t1) + (x.t3 - x.t4)) as real
        <= ((x.t4 - x.t1) - (x.t3 - x.t2)) as real
    ensures var e, d := Measure(x).maxError - 1, Measure(x).measurement as real - theta;
      -e as real <= d <= e as real ==> Honest(x, theta)
    ensures Measure(x).time == x.t4
  {
  }

  /** Both halves are cut towards zero. */
  lemma MeasureIs(x: Exchange)
    ensures Halves(Measure(x).measurement, (x.t2 - x.t1) + (x.t3 - x.t4))
    ensures Halves(Measure(x).maxError, (x.t4 - x.t1) - (x.t3 - x.t2))
  {
  }

  predicate Halves(h: int, n: int) {
    (n >= 0 ==> 2 * h <= n <= 2 * h + 1) && (n <= 0 ==> 2 * h - 1 <= n <= 2 * h)
  }

  // ---------------------------------------------------------------- quality

  datatype Quality = QualityGood | QualityDegraded | QualityLost

  function QualityFromError(errUs: int): Quality {
    if errUs < 100 then QualityGood else if errUs < 5000 then QualityDegraded else QualityLost
  }

  /** e is the square root of v rounded to the nearest integer, halves up. */
  ghost predicate IsRoundedRoot(v: real, e: int) {
    e >= 0 && (e > 0 ==> (e as real - 0.5) * (e as real - 0.5) <= v) && v < (e as real + 0.5) * (e as real + 0.5)
  }

  function RoundedRootFrom(v: real, e: int): (r: int)
    requires v >= 0.0 && e >= 0
    requires e > 0 ==> (e as real - 0.5) * (e as real - 0.5) <= v
    ensures IsRoundedRoot(v, r)
    decreases v.Floor + 2 - e
  {
    var x := e as real + 0.5;
    if v < x * x then e
    else
      assert e as real * e as real >= 0.0;
      assert x * x == e as real * e as real + e as real + 0.25;
      assert e as real <= v;
      assert (e + 1) as real - 0.5 == x;
      RoundedRootFrom(v, e + 1)
  }

  lemma SquareOrder(x: real, y: real)
    requires 0.0 <= x <= y
    ensures x * x <= y * y
  {
    assert x * (y - x) >= 0.0 && y * (y - x) >= 0.0;
  }

  /** GetError: the rounded standard deviation; the largest int64 for an infinite or invalid variance. */
  function ErrorOf(e: Estimate): int {
    if e.NotANumber? || e.st.offsetUnknown || e.st.cov.oo < 0.0 then MAX_INT64 else RoundedRootFrom(e.st.cov.oo, 0)
  }

  /** Quality in terms of the variance itself: no root, no rounding. */
  lemma QualityThresholds(e: Estimate)
    ensures var q := QualityFromError(ErrorOf(e));
      if e.NotANumber? || e.st.offsetUnknown || e.st.cov.oo < 0.0 then q == QualityLost
      else (q == QualityGood <==> e.st.cov.oo < 9900.25) && (q == QualityLost <==> e.st.cov.oo >= 24995000.25)
  {
    if e.Known? && !e.st.offsetUnknown && e.st.cov.oo >= 0.0 {
      RootThreshold(e.st.cov.oo, ErrorOf(e), 100);
      RootThreshold(e.st.cov.oo, ErrorOf(e), 5000);
    }
  }

  /** After a division by zero no response ever restores the quality. */
  lemma LostForever(p: Params, e: Estimate, ss: seq<Sample>)
    requires e.NotANumber?
    ensures QualityFromError(ErrorOf(After(p, e, ss))) == QualityLost
  {
  }

  lemma RootThreshold(v: real, e: int, n: int)
    requires IsRoundedRoot(v, e) && n > 0
    ensures e < n <==> v < (n as real - 0.5) * (n as real - 0.5)
  {
    var x := n as real - 0.5;
    if e < n {
      assert e as real + 0.5 <= x;
      SquareOrder(e as real + 0.5, x);
    } else {
      assert x <= e as real - 0.5;
      SquareOrder(x, e as real - 0.5);
    }
  }

  // ---------------------------------------------------------------- the clock

  function Count(e: Estimate): uint8 { if e.Known? then e.st.count else e.count }

  /** Local wall-clock nanoseconds for a server timestamp in microseconds. */
  function LocalTime(e: Estimate, serverTime: int, platform: int): int {
    if Count(e) == 0 then Wrap64(serverTime * 1000) else FromServer(e, serverTime, platform) * 1000
  }

  /** Converting a server timestamp to local time and back is within 1 µs, and local time counts whole microseconds. */
  lemma LocalTimeInverts(st: State, s: int, platform: int) returns (x: int)
    requires -2.0 / 3.0 < EffectiveDrift(st) < 2.0 && st.count > 0
    ensures LocalTime(Known(st), s, platform) == 1000 * x
    ensures -1 <= FromClient(Known(st), x, platform) - s <= 1
  {
    ConversionsInvert(st, 0, s, platform);
    hide FromServer, FromClient;
    x := FromServer(Known(st), s, platform);
  }

  /** Before the first response the server's clock is taken for the local one. */
  lemma LocalTimeUnsynced(e: Estimate, s: int, platform: int)
    requires Count(e) == 0 && -TWO_63 <= s * 1000 < TWO_63
    ensures LocalTime(e, s, platform) == 1000 * s
  {
  }

  lemma LocalTimeMonotone(st: State, s1: int, s2: int, platform: int)
    requires EffectiveDrift(st) > -1.0 && s1 <= s2
    requires st.count > 0 || (-TWO_63 <= s1 * 1000 && s2 * 1000 < TWO_63)
    ensures LocalTime(Known(st), s1, platform) <= LocalTime(Known(st), s2, platform)
  {
    ClientTimeMonotone(st, s1, s2);
  }

  class ClockSync {
    const filter: TimeFilter
    var rtt: int
    var quality: Quality
    var lastSync: Option<int>  // nanoseconds; None for the zero time

    ghost predicate Valid()
      reads this, filter
    {
      filter.Valid()
    }

    constructor (cfg: Config)
      ensures Valid() && fresh(filter) && filter.params == FromConfig(cfg) && filter.Holds() == Known(FRESH)
      ensures quality == QualityLost && lastSync == None
    {
      filter := new TimeFilter(cfg);
      rtt, quality, lastSync := 0, QualityLost, None;
    }

    method ProcessSyncResponse(x: Exchange, now: int)
      requires Valid()
      modifies this, filter
      ensures Valid() && filter.Holds() == Next(filter.params, old(filter.Holds()), Measure(x))
      ensures rtt == RoundTrip(x) && lastSync == Some(now)
      ensures quality == QualityFromError(ErrorOf(filter.Holds()))
    {
      rtt := (x.t4 - x.t1) - (x.t3 - x.t2);
      lastSync := Some(now);
      var measurement := TruncDiv((x.t2 - x.t1) + (x.t3 - x.t4), 2);
      var maxError := TruncDiv(rtt, 2);
      filter.Update(measurement, maxError, x.t4);
      var e := GetError();
      quality := QualityFromError(e);
    }

    method GetError() returns (e: int)
      ensures e == ErrorOf(filter.Holds())
    {
      if filter.nan || filter.offsetUnknown || filter.offsetCovariance < 0.0 { return MAX_INT64; }
      e := RoundedRootFrom(filter.offsetCovariance, 0);
    }

    /** Good news expires: five seconds without a response and quality is lost. */
    method CheckQuality(now: int) returns (q: Quality)
      modifies this`quality
      ensures q == quality
      ensures quality == if lastSync == None || now - lastSync.value > 5_000_000_000 then QualityLost else old(quality)
    {
      if lastSync.None? || now - lastSync.value > 5_000_000_000 { quality := QualityLost; }
      q := quality;
    }

    method ServerToLocalTime(serverTime: int, platform: int) returns (local: int)
      ensures local == LocalTime(filter.Holds(), serverTime, platform)
    {
      var synced := filter.Synced();
      if !synced { return Wrap64(serverTime * 1000); }
      var clientMicros := filter.ComputeClientTime(serverTime, platform);
      local := clientMicros * 1000;
    }
  }

  // ---------------------------------------------------------------- the burst

  datatype Reply = SendFailed | TimedOut | Cancelled | Answered(x: Exchange)

  /** The round trip as the burst loop computes it, in int64. */
  function WireRoundTrip(x: Exchange): (r: int)
    ensures r <= MAX_INT64
    ensures -TWO_63 <= RoundTrip(x) < TWO_63 ==> r == RoundTrip(x)
  {
    Wrap64(RoundTrip(x))
  }

  /** What the burst hands on: the first answer with the smallest round trip. */
  ghost predicate IsBest(replies: seq<Reply>, best: Exchange) {
    exists k :: 0 <= k < |replies| && replies[k] == Answered(best)
      && (forall j :: 0 <= j < |replies| && replies[j].Answered? ==> WireRoundTrip(best) <= WireRoundTrip(replies[j].x))
      && (forall j :: 0 <= j < k && replies[j].Answered? ==> WireRoundTrip(best) < WireRoundTrip(replies[j].x))
  }

  /** Some answer beats the initial bound, the largest int64. */
  predicate SomeUsable(replies: seq<Reply>) {
    exists k :: 0 <= k < |replies| && replies[k].Answered? && WireRoundTrip(replies[k].x) < MAX_INT64
  }

  /** What a burst over these outcomes hands on: nothing if it is cancelled or unanswered. */
  ghost predicate Handed(replies: seq<Reply>, best: Option<Exchange>) {
    && (best == None <==> Cancelled in replies || forall k :: 0 <= k < |replies| ==> !replies[k].Answered?)
    && (best.Some? && SomeUsable(replies) ==> IsBest(replies, best.value))
    && (best.Some? && !SomeUsable(replies) ==> best.value == Exchange(0, 0, 0, 0))
  }

  /**
   One burst: the best exchange, or four zeros when every round trip is the largest int64, becomes the filter's next
   sample; otherwise nothing changes.
   */
  method RunBurst(cs: ClockSync, replies: seq<Reply>, now: int) returns (best: Option<Exchange>)
    requires cs.Valid()
    modifies cs, cs.filter
    ensures cs.Valid() && Handed(replies, best)
    ensures best.Some? ==>
      && cs.filter.Holds() == Next(cs.filter.params, old(cs.filter.Holds()), Measure(best.value))
      && cs.rtt == RoundTrip(best.value) && cs.lastSync == Some(now)
      && cs.quality == QualityFromError(ErrorOf(cs.filter.Holds()))
    ensures best == None ==>
      && cs.filter.Holds() == old(cs.filter.Holds()) && cs.rtt == old(cs.rtt)
      && cs.lastSync == old(cs.lastSync) && cs.quality == old(cs.quality)
  {
    best := SelectBest(replies);
    hide Handed, Measure, RoundTrip, ErrorOf, Next;
    if best.Some? { cs.ProcessSyncResponse(best.value, now); }
  }

  /** The loop of the burst. */
  method SelectBest(replies: seq<Reply>) returns (best: Option<Exchange>)
    ensures Handed(replies, best)
  {
    hide WireRoundTrip;
    var bestX, bestRTT, valid := Exchange(0, 0, 0, 0), MAX_INT64, 0;
    ghost var at := -1;
    for i := 0 to |replies|
      invariant Cancelled !in replies[..i]
      invariant valid >= 0
      invariant valid == 0 <==> forall k :: 0 <= k < i ==> !replies[k].Answered?
      invariant bestRTT <= MAX_INT64 && (at == -1 <==> bestRTT == MAX_INT64)
      invariant at == -1 ==> bestX == Exchange(0, 0, 0, 0)
      invariant -1 <= at < i
      invariant at >= 0 ==> replies[at] == Answered(bestX) && WireRoundTrip(bestX) == bestRTT
      invariant forall j :: 0 <= j < i && replies[j].Answered? ==> bestRTT <= WireRoundTrip(replies[j].x)
      invariant forall j :: 0 <= j < at && replies[j].Answered? ==> bestRTT < WireRoundTrip(replies[j].x)
    {
      match replies[i]
      case SendFailed =>
      case TimedOut =>
      case Cancelled =>
        return None;
      case Answered(x) =>
        var rtt := WireRoundTrip(x);
        if rtt < bestRTT {
          bestRTT, bestX := rtt, x;
          at := i;
        }
        valid := valid + 1;
    }
    assert replies[..|replies|] == replies;
    if valid == 0 { return None; }
    best := Some(bestX);
  }

  /**
   End to end: if the server clock is theta ahead throughout and no delay is negative, the sample a burst hands
   to the filter is within half of every answered round trip, plus 1, of the truth, whoever else timed out.
   */
  lemma BurstBound(replies: seq<Reply>, best: Exchange, theta: real, j: nat)
    requires IsBest(replies, best) && j < |replies| && replies[j].Answered?
    requires forall k :: 0 <= k < |replies| && replies[k].Answered? ==>
      Honest(replies[k].x, theta) && RoundTrip(replies[k].x) <= MAX_INT64
    ensures var bound := (Measure(replies[j].x).maxError + 1) as real;
      -bound <= Measure(best).measurement as real - theta <= bound
    ensures Measure(best).maxError <= Measure(replies[j].x).maxError
  {
    var k :| 0 <= k < |replies| && replies[k] == Answered(best);
    NtpBound(replies[k].x, theta);
    NtpBound(replies[j].x, theta);
  }
}
