/** The rate-limit governor: one process-wide rejection expiry, a check
    before a request is served and a check after every upstream response. */
module RateLimit {
  import opened Common

  datatype Period = Minute | Day
  datatype Policy = RequestRejection | DelayedResponse

  /** A threshold `num / den` with `den > 0`. */
  datatype Ratio = Ratio(num: int, den: int)

  /** One configured policy with its trigger ratio per period. */
  datatype Threshold = Threshold(policy: Policy, minute: Ratio, day: Ratio)

  /** The periods post-check reads, in order. */
  const Periods: seq<Period> := [Minute, Day]

  /** The configured policies, in the order post-check tries them, with the
      default ratios 0.1 (rejection) and 0.3 (delay). */
  const Thresholds: seq<Threshold> := [
    Threshold(RequestRejection, Ratio(1, 10), Ratio(1, 10)),
    Threshold(DelayedResponse, Ratio(3, 10), Ratio(3, 10))
  ]

  function PeriodName(p: Period): string
  {
    match p
    case Minute => "Minute"
    case Day => "Day"
  }

  function LimitHeader(p: Period): string { "X-Ratelimit-App-Global-" + PeriodName(p) + "-Limit" }
  function RemainingHeader(p: Period): string { "X-Ratelimit-App-Global-" + PeriodName(p) + "-Remaining" }
  function ResetHeader(p: Period): string { "X-Ratelimit-App-Global-" + PeriodName(p) + "-Reset" }

  function Level(t: Threshold, p: Period): Ratio
  {
    match p
    case Minute => t.minute
    case Day => t.day
  }

  /** `remaining / limit <= r`, compared exactly in integers. */
  predicate RatioAtMost(remaining: int, limit: int, r: Ratio)
    requires limit != 0 && r.den > 0
  {
    if limit > 0 then remaining * r.den <= r.num * limit
    else remaining * r.den >= r.num * limit
  }

  function Abs(x: int): nat { if x < 0 then -x else x }

  lemma DivBounds(x: nat, y: nat)
    requires y > 0
    ensures 0 <= x / y && (x / y) * y <= x < (x / y + 1) * y
  {
    var m, r := x / y, x % y;
    assert x == m * y + r && 0 <= r < y;
    assert (m + 1) * y == m * y + y;
  }

  /** Python's `int(a / b)`: the quotient truncated toward zero. */
  function TruncDiv(a: int, b: int): (q: int)
    requires b != 0
    ensures a >= 0 && b > 0 ==> q == a / b
    ensures q < 0 <==> (a < 0) != (b < 0) && Abs(a) >= Abs(b)
    ensures Abs(q) * Abs(b) <= Abs(a) < (Abs(q) + 1) * Abs(b)
  {
    var m := Abs(a) / Abs(b);
    DivBounds(Abs(a), Abs(b));
    assert m > 0 <==> Abs(a) >= Abs(b);
    if (a < 0) != (b < 0) then -m else m
  }

  /** How a post-check ends: it carries on, it gave up on a missing limit
      header (the swallowed KeyError), it asks the fetch loop to stop, or it
      raises. */
  datatype Signal = Proceed | Skipped | Stop | Raise(error: Error)

  /** The governor's state after (part of) a post-check: the rejection
      expiry, the sleeps performed so far, and how the check stands. */
  datatype Check = Check(expiry: Option<int>, delays: seq<int>, signal: Signal)

  /** One policy applied to one period's figures. */
  function ApplyThreshold(c: Check, t: Threshold, p: Period, now: int, limit: int, remaining: int, reset: int): Check
    requires Level(t, p).den > 0
  {
    if limit == 0 then c.(signal := Raise(ZeroDivision))
    else if !RatioAtMost(remaining, limit, Level(t, p)) then c
    else match t.policy
      case RequestRejection => c.(expiry := Some(now + reset))
      case DelayedResponse =>
        if remaining == 0 then c.(signal := Raise(ZeroDivision))
        else
          var d := TruncDiv(reset, remaining);
          if d < 0 then c.(signal := Raise(NegativeSleep)) else c.(delays := c.delays + [d])
  }

  predicate WellFormed(ts: seq<Threshold>)
  {
    forall i :: 0 <= i < |ts| ==> ts[i].minute.den > 0 && ts[i].day.den > 0
  }

  /** The policies `ts`, in order, until one of them raises. */
  function ApplyThresholds(c: Check, ts: seq<Threshold>, p: Period, now: int, limit: int, remaining: int, reset: int): Check
    requires WellFormed(ts)
    decreases |ts|
  {
    if ts == [] || c.signal != Proceed then c
    else ApplyThresholds(ApplyThreshold(c, ts[0], p, now, limit, remaining, reset), ts[1..], p, now, limit, remaining, reset)
  }

  /** One period of a post-check. */
  function CheckPeriod(c: Check, p: Period, now: int, status: int, headers: map<string, int>): Check
  {
    if LimitHeader(p) !in headers then c.(signal := Skipped)
    else if RemainingHeader(p) !in headers || ResetHeader(p) !in headers then c.(signal := Raise(TypeError))
    else
      var limit, remaining, reset := headers[LimitHeader(p)], headers[RemainingHeader(p)], headers[ResetHeader(p)];
      if status == 429 && remaining == 0 then Check(Some(now + reset), c.delays, Stop)
      else ApplyThresholds(c, Thresholds, p, now, limit, remaining, reset)
  }

  /** The periods `ps`, in order, while the check proceeds. */
  function CheckPeriods(c: Check, ps: seq<Period>, now: int, status: int, headers: map<string, int>): Check
    decreases |ps|
  {
    if ps == [] || c.signal != Proceed then c
    else CheckPeriods(CheckPeriod(c, ps[0], now, status, headers), ps[1..], now, status, headers)
  }

  /** The whole post-check from the expiry `expiry`; a swallowed KeyError
      returns normally. */
  function PostCheck(expiry: Option<int>, now: int, status: int, headers: map<string, int>): Check
  {
    var c := CheckPeriods(Check(expiry, [], Proceed), Periods, now, status, headers);
    if c.signal == Skipped then c.(signal := Proceed) else c
  }

  /** A 429 with nothing left in the minute window opens a rejection window
      until `now` plus the minute reset and stops, whatever the day headers
      say. */
  lemma PostCheckStopsOnExhausted429(expiry: Option<int>, now: int, headers: map<string, int>)
    requires LimitHeader(Minute) in headers && RemainingHeader(Minute) in headers && ResetHeader(Minute) in headers
    requires headers[RemainingHeader(Minute)] == 0
    ensures PostCheck(expiry, now, 429, headers) == Check(Some(now + headers[ResetHeader(Minute)]), [], Stop)
  {
  }

  /** A missing minute limit header ends the check at once: nothing changes,
      the day period is not looked at. */
  lemma PostCheckWithoutMinuteLimit(expiry: Option<int>, now: int, status: int, headers: map<string, int>)
    requires LimitHeader(Minute) !in headers
    ensures PostCheck(expiry, now, status, headers) == Check(expiry, [], Proceed)
  {
  }

  /** A missing remaining or reset header raises a TypeError, which is not
      swallowed. */
  lemma PostCheckWithoutMinuteRemaining(expiry: Option<int>, now: int, status: int, headers: map<string, int>)
    requires LimitHeader(Minute) in headers && RemainingHeader(Minute) !in headers
    ensures PostCheck(expiry, now, status, headers) == Check(expiry, [], Raise(TypeError))
  {
  }

  /** What one period does with the default thresholds, for a positive
      limit and no exhausted 429. */
  lemma PeriodWithDefaultThresholds(c: Check, p: Period, now: int, status: int, headers: map<string, int>)
    requires c.signal == Proceed
    requires LimitHeader(p) in headers && RemainingHeader(p) in headers && ResetHeader(p) in headers
    requires var limit, remaining := headers[LimitHeader(p)], headers[RemainingHeader(p)];
      limit > 0 && !(status == 429 && remaining == 0)
    ensures var limit, remaining, reset := headers[LimitHeader(p)], headers[RemainingHeader(p)], headers[ResetHeader(p)];
      var r := CheckPeriod(c, p, now, status, headers);
      && (10 * remaining > 3 * limit ==> r == c)
      && (limit < 10 * remaining <= 3 * limit && reset >= 0 ==>
            r == c.(delays := c.delays + [reset / remaining]))
      && (0 < 10 * remaining <= limit && reset >= 0 ==>
            r == Check(Some(now + reset), c.delays + [reset / remaining], Proceed))
      && (remaining == 0 ==> r == Check(Some(now + reset), c.delays, Raise(ZeroDivision)))
  {
    var limit, remaining, reset := headers[LimitHeader(p)], headers[RemainingHeader(p)], headers[ResetHeader(p)];
    var t0, t1 := Thresholds[0], Thresholds[1];
    assert Level(t0, p) == Ratio(1, 10) && Level(t1, p) == Ratio(3, 10);
    var c1 := ApplyThreshold(c, t0, p, now, limit, remaining, reset);
    var c2 := ApplyThreshold(c1, t1, p, now, limit, remaining, reset);
    assert Thresholds[1..][1..] == [];
    assert ApplyThresholds(c, Thresholds, p, now, limit, remaining, reset) ==
      (if c1.signal != Proceed then c1 else c2);
  }

  /** A zero limit raises a ZeroDivisionError before any policy applies. */
  lemma PeriodWithZeroLimit(c: Check, p: Period, now: int, status: int, headers: map<string, int>)
    requires c.signal == Proceed
    requires LimitHeader(p) in headers && RemainingHeader(p) in headers && ResetHeader(p) in headers
    requires headers[LimitHeader(p)] == 0 && !(status == 429 && headers[RemainingHeader(p)] == 0)
    ensures CheckPeriod(c, p, now, status, headers) == c.(signal := Raise(ZeroDivision))
  {
  }

  /** The process-wide rejection state: `None`, or the time the active
      REQUEST_REJECTION window ends. */
  class Governor {
    var expiresAt: Option<int>

    constructor ()
      ensures expiresAt == None
    {
      expiresAt := None;
    }

    /** The check made before a request is served: an unexpired window
        rejects and is kept; an expired one is cleared. */
    method PreCheck(now: int) returns (failure: Option<Error>)
      modifies this
      ensures old(expiresAt).Some? && old(expiresAt).value > now ==>
        failure == Some(Rejected(old(expiresAt).value)) && expiresAt == old(expiresAt)
      ensures old(expiresAt).Some? && old(expiresAt).value <= now ==>
        failure == None && expiresAt == None
      ensures old(expiresAt).None? ==> failure == None && expiresAt == None
    {
      failure := None;
      if expiresAt.Some? {
        if expiresAt.value > now {
          failure := Some(Rejected(expiresAt.value));
        } else {
          expiresAt := None;
        }
      }
    }

    /** The check made on every upstream response at time `now`: the new
        expiry, the sleeps performed and the outcome are those of
        `PostCheck`. */
    method PostCheckResponse(now: int, status: int, headers: map<string, int>) returns (delays: seq<int>, signal: Signal)
      modifies this
      ensures Check(expiresAt, delays, signal) == PostCheck(old(expiresAt), now, status, headers)
      ensures signal != Skipped
    {
      ghost var start := Check(expiresAt, [], Proceed);
      delays, signal := [], Proceed;
      var i := 0;
      while i < |Periods| && signal == Proceed
        invariant 0 <= i <= |Periods|
        invariant CheckPeriods(start, Periods, now, status, headers)
               == CheckPeriods(Check(expiresAt, delays, signal), Periods[i..], now, status, headers)
        decreases |Periods| - i
      {
        var period := Periods[i];
        ghost var atPeriod := Check(expiresAt, delays, signal);
        if LimitHeader(period) !in headers {
          signal := Skipped;
        } else if RemainingHeader(period) !in headers || ResetHeader(period) !in headers {
          signal := Raise(TypeError);
        } else {
          var limit := headers[LimitHeader(period)];
          var remaining := headers[RemainingHeader(period)];
          var reset := headers[ResetHeader(period)];
          if status == 429 && remaining == 0 {
            expiresAt := Some(now + reset);
            signal := Stop;
          } else {
            var j := 0;
            while j < |Thresholds| && signal == Proceed
              invariant 0 <= j <= |Thresholds|
              invariant ApplyThresholds(atPeriod, Thresholds, period, now, limit, remaining, reset)
                     == ApplyThresholds(Check(expiresAt, delays, signal), Thresholds[j..], period, now, limit, remaining, reset)
              decreases |Thresholds| - j
            {
              var t := Thresholds[j];
              if limit == 0 {
                signal := Raise(ZeroDivision);
              } else if RatioAtMost(remaining, limit, Level(t, period)) {
                match t.policy {
                  case RequestRejection =>
                    expiresAt := Some(now + reset);
                  case DelayedResponse =>
                    if remaining == 0 {
                      signal := Raise(ZeroDivision);
                    } else {
                      var d := TruncDiv(reset, remaining);
                      if d < 0 {
                        signal := Raise(NegativeSleep);
                      } else {
                        delays := delays + [d];
                      }
                    }
                }
              }
              assert Thresholds[j..][1..] == Thresholds[j + 1..];
              j := j + 1;
            }
          }
        }
        assert Periods[i..][1..] == Periods[i + 1..];
        i := i + 1;
      }
      if signal == Skipped {
        signal := Proceed;
      }
    }
  }
}
