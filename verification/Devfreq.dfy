/**
 Averaging of the GPU load: update_average_dev_status of msm/msm_gpu_devfreq.c. Times are in
 microseconds and fit in 32 bits.
 */
module Devfreq {

  datatype Status = Status(busy: nat, total: nat, freq: nat)

  /** The load is a fraction of the time. */
  predicate Sound(s: Status) {
    s.busy <= s.total
  }

  /** The measurement is as long as a polling interval. */
  predicate LongEnough(raw: Status, pollingMs: nat) {
    raw.total / 1000 >= pollingMs
  }

  /** Together with the measurement the history is more than a tenth too long. */
  predicate TooLong(avg: Status, raw: Status, pollingMs: nat) {
    (avg.total + raw.total) / 1000 >= pollingMs * 11 / 10
  }

  /** Drops old history, assuming the same load all over it. */
  function Truncate(avg: Status, raw: Status, pollingMs: nat): Status
    requires avg.total > 0 && raw.total <= pollingMs * 1000
  {
    var kept := pollingMs * 1000 - raw.total;
    avg.(busy := Quotient(avg.busy * kept, avg.total), total := kept)
  }

  function Quotient(x: nat, n: nat): nat
    requires n > 0
  {
    x / n
  }

  function Combine(avg: Status, raw: Status): Status
    requires avg.total + raw.total > 0
  {
    Status(avg.busy + raw.busy, avg.total + raw.total,
           Quotient(avg.freq * avg.total + raw.freq * raw.total, avg.total + raw.total))
  }

  function Update(avg: Status, raw: Status, pollingMs: nat): Status {
    if LongEnough(raw, pollingMs) || avg.total == 0 then raw
    else
      var history := if TooLong(avg, raw, pollingMs) then Truncate(avg, raw, pollingMs) else avg;
      Combine(history, raw)
  }

  // ---------------------------------------------------------------- arithmetic

  lemma ScaledDown(a: nat, b: nat, k: nat)
    requires a <= b && b > 0
    ensures a * k / b <= k
  {
    assert a * k <= b * k;
    DivLe(a * k, b, k);
  }

  lemma DivLe(x: nat, b: nat, k: nat)
    requires b > 0 && x <= b * k
    ensures x / b <= k
  {
  }

  lemma DivGe(x: nat, b: nat, k: nat)
    requires b > 0 && x >= b * k
    ensures x / b >= k
  {
    var q := x / b;
    assert x < b * q + b;
    assert b * (q + 1 - k) > 0;
    PositiveFactor(b, q + 1 - k);
  }

  lemma PositiveFactor(b: nat, d: int)
    requires b > 0 && b * d > 0
    ensures d > 0
  {
  }

  // ---------------------------------------------------------------- what truncating and averaging keep

  /** Truncating never lengthens the history, leaves some of it, and keeps the load sound. */
  lemma TruncateShortens(avg: Status, raw: Status, pollingMs: nat)
    requires Sound(avg) && avg.total > 0 && !LongEnough(raw, pollingMs) && TooLong(avg, raw, pollingMs)
    ensures raw.total < pollingMs * 1000
    ensures 0 < Truncate(avg, raw, pollingMs).total <= avg.total
    ensures Truncate(avg, raw, pollingMs).total + raw.total == pollingMs * 1000
    ensures Sound(Truncate(avg, raw, pollingMs))
  {
    assert pollingMs * 11 / 10 >= pollingMs;
    ScaledDown(avg.busy, avg.total, pollingMs * 1000 - raw.total);
  }

  function Least(a: nat, b: nat): nat {
    if a <= b then a else b
  }

  function Greatest(a: nat, b: nat): nat {
    if a <= b then b else a
  }

  /** The load of the history that is kept is that of the whole, rounded down. */
  lemma TruncateKeepsLoad(avg: Status, raw: Status, pollingMs: nat)
    requires avg.total > 0 && raw.total <= pollingMs * 1000
    ensures var kept := Truncate(avg, raw, pollingMs);
            && kept.busy * avg.total <= avg.busy * kept.total < (kept.busy + 1) * avg.total
            && kept.freq == avg.freq
  {
    Rounds(avg.busy * (pollingMs * 1000 - raw.total), avg.total);
  }

  lemma Rounds(x: nat, n: nat)
    requires n > 0
    ensures Quotient(x, n) * n <= x < (Quotient(x, n) + 1) * n
  {
    assert x == n * (x / n) + x % n;
  }

  /** Times add up, and the frequency is weighted with them, rounded down. */
  lemma CombineIsWeighted(avg: Status, raw: Status)
    requires avg.total + raw.total > 0
    ensures var r := Combine(avg, raw);
            && r.busy == avg.busy + raw.busy && r.total == avg.total + raw.total
            && r.freq * r.total <= avg.freq * avg.total + raw.freq * raw.total < (r.freq + 1) * r.total
  {
    Rounds(avg.freq * avg.total + raw.freq * raw.total, avg.total + raw.total);
  }

  /** An update counts the measurement in full, and of the history as much as still fits. */
  lemma UpdateCounts(avg: Status, raw: Status, pollingMs: nat)
    requires avg.total > 0 && raw.total / 1000 < pollingMs
    ensures var r, fits := Update(avg, raw, pollingMs), (avg.total + raw.total) / 1000 < pollingMs * 11 / 10;
            && r.total == (if fits then avg.total + raw.total else pollingMs * 1000)
            && r.busy >= raw.busy
            && (r.busy - raw.busy) * avg.total <= avg.busy * (r.total - raw.total)
                 < (r.busy - raw.busy + 1) * avg.total
            && r.freq * r.total <= avg.freq * (r.total - raw.total) + raw.freq * raw.total < (r.freq + 1) * r.total
  {
    if TooLong(avg, raw, pollingMs) {
      TruncateKeepsLoad(avg, raw, pollingMs);
      CombineIsWeighted(Truncate(avg, raw, pollingMs), raw);
    } else {
      CombineIsWeighted(avg, raw);
    }
  }

  /** A weighted average lies between its inputs. */
  lemma CombineIsBetween(avg: Status, raw: Status)
    requires avg.total + raw.total > 0
    ensures Least(avg.freq, raw.freq) <= Combine(avg, raw).freq <= Greatest(avg.freq, raw.freq)
  {
    var lo, hi, n := Least(avg.freq, raw.freq), Greatest(avg.freq, raw.freq), avg.total + raw.total;
    var x := avg.freq * avg.total + raw.freq * raw.total;
    assert lo * avg.total <= avg.freq * avg.total <= hi * avg.total;
    assert lo * raw.total <= raw.freq * raw.total <= hi * raw.total;
    assert n * lo == lo * avg.total + lo * raw.total && n * hi == hi * avg.total + hi * raw.total;
    DivLe(x, n, hi);
    DivGe(x, n, lo);
  }

  /** An average covers one measurement, or less than 1.1 polling periods, or exactly one period. */
  predicate HistoryBounded(r: Status, raw: Status, pollingMs: nat) {
    r == raw || r.total / 1000 < pollingMs * 11 / 10 || r.total == pollingMs * 1000
  }

  /** update_average_dev_status: given sound inputs the divisors are positive, the average is sound, its
      frequency lies between those of history and measurement, and the history stays bounded. */
  method UpdateAverage(avg: Status, raw: Status, pollingMs: nat) returns (r: Status)
    requires Sound(avg) && Sound(raw)
    ensures r == Update(avg, raw, pollingMs) && Sound(r)
    ensures Least(avg.freq, raw.freq) <= r.freq <= Greatest(avg.freq, raw.freq)
    ensures HistoryBounded(r, raw, pollingMs)
  {
    if LongEnough(raw, pollingMs) || avg.total == 0 {
      return raw;
    }
    r := avg;
    if TooLong(avg, raw, pollingMs) {
      TruncateShortens(avg, raw, pollingMs);
      r := Truncate(avg, raw, pollingMs);
    }
    CombineIsBetween(r, raw);
    r := Combine(r, raw);
  }

  function AverageOf(start: Status, raws: seq<Status>, pollingMs: nat): Status {
    if raws == [] then start else Update(AverageOf(start, raws[..|raws| - 1], pollingMs), raws[|raws| - 1], pollingMs)
  }

  lemma UpdateBounds(avg: Status, raw: Status, pollingMs: nat)
    requires Sound(avg) && Sound(raw)
    ensures var r := Update(avg, raw, pollingMs);
            && Sound(r) && Least(avg.freq, raw.freq) <= r.freq <= Greatest(avg.freq, raw.freq)
            && HistoryBounded(r, raw, pollingMs)
  {
    if !LongEnough(raw, pollingMs) && avg.total > 0 {
      if TooLong(avg, raw, pollingMs) {
        TruncateShortens(avg, raw, pollingMs);
        CombineIsBetween(Truncate(avg, raw, pollingMs), raw);
      } else {
        CombineIsBetween(avg, raw);
      }
    }
  }

  /** Over any series of sound measurements the average load never exceeds one, the average frequency
      stays in any range that contains the measured ones, and the history stays bounded. */
  lemma {:induction false} AverageStaysSound(start: Status, raws: seq<Status>, pollingMs: nat, lo: nat, hi: nat)
    requires Sound(start) && lo <= start.freq <= hi
    requires forall i :: 0 <= i < |raws| ==> Sound(raws[i]) && lo <= raws[i].freq <= hi
    ensures var r := AverageOf(start, raws, pollingMs);
            && Sound(r) && lo <= r.freq <= hi
            && (raws != [] ==> HistoryBounded(r, raws[|raws| - 1], pollingMs))
  {
    if raws != [] {
      AverageStaysSound(start, raws[..|raws| - 1], pollingMs, lo, hi);
      UpdateBounds(AverageOf(start, raws[..|raws| - 1], pollingMs), raws[|raws| - 1], pollingMs);
    }
  }
}
