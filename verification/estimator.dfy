/** Bounds and convergence of the RTT estimator (sections 2.2 and 2.3 of RFC 6298,
in integer nanoseconds). */
module Estimator {
  import opened Ack

  ghost predicate InRange(samples: seq<nat>, lo: nat, hi: nat) {
    forall i :: 0 <= i < |samples| ==> lo <= samples[i] <= hi
  }

  function Max(a: nat, b: nat): nat { if a < b then b else a }

  /** After any non-empty history of samples in [lo, hi], SRTT is in [lo, hi], RTTVAR is at
      most max(hi/2, hi-lo), and the RTO is the clamped SRTT + 4 * RTTVAR. */
  lemma {:induction false} EstimateBounded(samples: seq<nat>, lo: nat, hi: nat)
    requires samples != [] && InRange(samples, lo, hi)
    ensures var e := RecordedAll(DEFAULT_RTT, samples);
            && e.samples == |samples|
            && lo <= e.smoothed <= hi
            && e.variance <= Max(hi / 2, hi - lo)
            && (50_000_000 <= e.smoothed + 4 * e.variance <= 30_000_000_000 ==> e.rto == e.smoothed + 4 * e.variance)
            && (e.smoothed + 4 * e.variance < 50_000_000 ==> e.rto == 50_000_000)
            && (e.smoothed + 4 * e.variance > 30_000_000_000 ==> e.rto == 30_000_000_000)
  {
    var before := samples[..|samples| - 1];
    if before != [] {
      EstimateBounded(before, lo, hi);
    }
  }

  /** Section 2.3 of RFC 6298 with alpha = 1/8 and beta = 1/4, in exact arithmetic. RTTVAR uses the
      SRTT from before the sample. */
  function ExactSrtt(e: Rtt, sample: nat): real { 7.0 / 8.0 * e.smoothed as real + 1.0 / 8.0 * sample as real }

  function ExactRttvar(e: Rtt, sample: nat): real {
    var deviation := e.smoothed as real - sample as real;
    3.0 / 4.0 * e.variance as real + 1.0 / 4.0 * if deviation < 0.0 then -deviation else deviation
  }

  /** Each update is the exact RFC value rounded down by less than a nanosecond; the first sample sets
      SRTT = R and RTTVAR = R/2. */
  lemma FollowsTheRfc(e: Rtt, sample: nat)
    ensures var e' := Recorded(e, sample);
            if e.samples == 0 then e'.smoothed == sample && 0 <= sample - 2 * e'.variance <= 1
            else
              && e'.smoothed as real <= ExactSrtt(e, sample) < e'.smoothed as real + 1.0
              && e'.variance as real <= ExactRttvar(e, sample) < e'.variance as real + 1.0
  {
  }

  /** The same sample `r`, folded in `n` times. */
  function Repeated(e: Rtt, r: nat, n: nat): Rtt {
    if n == 0 then e else Recorded(Repeated(e, r, n - 1), r)
  }

  /** How far SRTT is outside its resting interval [r-7, r]. */
  function Distance(e: Rtt, r: nat): nat { AbsDiff(e.smoothed, r) }

  predicate SettledSrtt(e: Rtt, r: nat) { e.smoothed <= r <= e.smoothed + 7 }

  predicate Settled(e: Rtt, r: nat) { SettledSrtt(e, r) && e.variance <= 7 }

  /** One step under a constant sample never crosses `r`, never moves away from it, and moves
      strictly closer until SRTT is at rest. */
  lemma ConstantStep(e: Rtt, r: nat)
    requires e.samples > 0
    ensures var e' := Recorded(e, r);
            && (e.smoothed >= r ==> r <= e'.smoothed <= e.smoothed)
            && (e.smoothed <= r ==> e.smoothed <= e'.smoothed <= r)
            && (!SettledSrtt(e, r) ==> Distance(e', r) < Distance(e, r))
            && (SettledSrtt(e, r) ==> SettledSrtt(e', r))
            && e'.variance <= Max(e.variance, Distance(e, r))
            && (SettledSrtt(e, r) && e.variance > 7 ==> e'.variance < e.variance)
            && (SettledSrtt(e, r) && e.variance <= 7 ==> e'.variance <= 7)
  {
  }

  lemma {:induction false} SrttSettles(e: Rtt, r: nat, n: nat)
    requires e.samples > 0
    ensures var e' := Repeated(e, r, n);
            && e'.samples > 0
            && e'.variance <= Max(e.variance, Distance(e, r))
            && Distance(e', r) <= Distance(e, r)
            && (SettledSrtt(e', r) || Distance(e', r) + n <= Distance(e, r))
            && (e.smoothed >= r ==> r <= e'.smoothed)
            && (e.smoothed <= r ==> e'.smoothed <= r)
  {
    if n > 0 {
      SrttSettles(e, r, n - 1);
      ConstantStep(Repeated(e, r, n - 1), r);
    }
  }

  lemma {:induction false} VarianceSettles(e: Rtt, r: nat, n: nat)
    requires e.samples > 0 && SettledSrtt(e, r)
    ensures var e' := Repeated(e, r, n);
            e'.samples > 0 && SettledSrtt(e', r) && (e'.variance <= 7 || e'.variance + n <= e.variance)
  {
    if n > 0 {
      VarianceSettles(e, r, n - 1);
      ConstantStep(Repeated(e, r, n - 1), r);
    }
  }

  lemma VarianceAtRest(e: Rtt, r: nat, n: nat)
    requires e.samples > 0 && SettledSrtt(e, r) && e.variance <= n
    ensures Repeated(e, r, n).samples > 0 && Settled(Repeated(e, r, n), r)
  {
    VarianceSettles(e, r, n);
  }

  /** SRTT is at rest after as many steps as it was nanoseconds away. */
  lemma SrttAtRest(e: Rtt, r: nat)
    requires e.samples > 0
    ensures var mid := Repeated(e, r, Distance(e, r));
            mid.samples > 0 && SettledSrtt(mid, r) && mid.variance <= Max(e.variance, Distance(e, r))
  {
    SrttSettles(e, r, Distance(e, r));
  }

  lemma {:induction false} RepeatedSplits(e: Rtt, r: nat, m: nat, n: nat)
    ensures Repeated(e, r, m + n) == Repeated(Repeated(e, r, m), r, n)
  {
    if n > 0 {
      RepeatedSplits(e, r, m, n - 1);
    }
  }

  lemma SettledRto(e: Rtt, r: nat)
    requires e.samples > 0 && Settled(Recorded(e, r), r)
    ensures Clamp(if r < 7 then 0 else r - 7, MIN_RTO, MAX_RTO) <= Recorded(e, r).rto
    ensures Recorded(e, r).rto <= Clamp(r + 28, MIN_RTO, MAX_RTO)
  {
  }

  /** Under a constant sample the estimate comes to rest after an explicit number of steps and
      stays there: SRTT in [r-7, r], RTTVAR at most 7 ns. */
  lemma ConstantSampleConverges(e: Rtt, r: nat, n: nat)
    requires e.samples > 0
    requires n >= Distance(e, r) + Max(e.variance, Distance(e, r))
    ensures var e' := Repeated(e, r, n);
            e'.samples > 0 && r <= e'.smoothed + 7 && e'.smoothed <= r && e'.variance <= 7
  {
    hide Recorded;
    SrttAtRest(e, r);
    VarianceAtRest(Repeated(e, r, Distance(e, r)), r, n - Distance(e, r));
    RepeatedSplits(e, r, Distance(e, r), n - Distance(e, r));
  }

  /** ... and so the retransmission timeout ends up within [r-7, r+28], clamped. */
  lemma TimeoutConverges(e: Rtt, r: nat, n: nat)
    requires e.samples > 0
    requires n > Distance(e, r) + Max(e.variance, Distance(e, r))
    ensures Clamp(if r < 7 then 0 else r - 7, MIN_RTO, MAX_RTO) <= Repeated(e, r, n).rto
    ensures Repeated(e, r, n).rto <= Clamp(r + 28, MIN_RTO, MAX_RTO)
  {
    var before := Repeated(e, r, n - 1);
    ConstantSampleConverges(e, r, n - 1);
    ConstantSampleConverges(e, r, n);
    SettledRto(before, r);
  }

  /** The interval is tight on both sides: below `r`, SRTT can rest up to 7 ns short of the sample
      for ever, because of the rounding towards zero. */
  lemma {:induction false} RestingShortOfTheSample(e: Rtt, r: nat, n: nat)
    requires e.samples > 0 && SettledSrtt(e, r)
    ensures Repeated(e, r, n).smoothed == e.smoothed && Repeated(e, r, n).samples > 0
  {
    if n > 0 {
      RestingShortOfTheSample(e, r, n - 1);
    }
  }
}
