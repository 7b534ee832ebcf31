/** The fixed-window rate limiter of the academy portal (middleware/rateLimiter.js): one
    counter per client address, reset when its window has run out, and a request refused
    once the counter passes the maximum. */
module RateLimiter {
  import opened Common

  /** The options a caller passes; an absent option takes the default. */
  datatype Options = Options(windowMs: Option<int>, max: Option<int>, message: Option<string>)

  datatype Settings = Settings(windowMs: int, max: int, message: string)

  const DefaultWindowMs: int := 15 * 60 * 1000
  const DefaultMax: int := 100
  const DefaultMessage: string := "Too many requests, please try again later"

  /** `{...defaultOptions, ...options}` */
  function Merge(o: Options): (s: Settings)
    ensures s.windowMs == (if o.windowMs.Some? then o.windowMs.value else DefaultWindowMs)
    ensures s.max == (if o.max.Some? then o.max.value else DefaultMax)
    ensures s.message == (if o.message.Some? then o.message.value else DefaultMessage)
  {
    Settings(
      if o.windowMs.Some? then o.windowMs.value else DefaultWindowMs,
      if o.max.Some? then o.max.value else DefaultMax,
      if o.message.Some? then o.message.value else DefaultMessage)
  }

  /** One address's counter: requests seen in the window and the time the window ends. */
  datatype Entry = Entry(count: int, resetTime: int)

  /** What the middleware does with one request. */
  datatype Outcome = Pass | Limited(status: nat, error: string, message: string)

  /** A request at `now` against the address's entry: the new entry and the outcome. A
      missing or expired entry starts a new window and lets the request through; otherwise
      the count goes up, rejected requests included, and the request passes while the count
      stays within the maximum. */
  function Hit(e: Option<Entry>, now: int, s: Settings): (r: (Entry, Outcome))
    ensures e.None? || e.value.resetTime < now ==> r == (Entry(1, now + s.windowMs), Pass)
    ensures e.Some? && e.value.resetTime >= now ==>
      r.0 == Entry(e.value.count + 1, e.value.resetTime)
      && (r.1 == Pass <==> e.value.count + 1 <= s.max)
      && (r.1 != Pass ==> r.1 == Limited(429, "Too Many Requests", s.message))
  {
    if e.None? || e.value.resetTime < now then (Entry(1, now + s.windowMs), Pass)
    else
      var n := e.value.count + 1;
      (Entry(n, e.value.resetTime), if n > s.max then Limited(429, "Too Many Requests", s.message) else Pass)
  }

  /** The middleware created by `rateLimit(options)`, with its own counters. */
  class Limiter {
    const opts: Settings
    var requestCounts: map<string, Entry>

    constructor (options: Options)
      ensures opts == Merge(options) && requestCounts == map[]
    {
      opts := Merge(options);
      requestCounts := map[];
    }

    /** One request from address `ip` at time `now`; other addresses' counters are untouched. */
    method Handle(ip: string, now: int) returns (o: Outcome)
      modifies this
      ensures var r := Hit(if ip in old(requestCounts) then Some(old(requestCounts)[ip]) else None, now, opts);
        o == r.1 && requestCounts == old(requestCounts)[ip := r.0]
    {
      if ip !in requestCounts || requestCounts[ip].resetTime < now {
        requestCounts := requestCounts[ip := Entry(1, now + opts.windowMs)];
        return Pass;
      }
      var n := requestCounts[ip].count + 1;
      requestCounts := requestCounts[ip := Entry(n, requestCounts[ip].resetTime)];
      if n > opts.max {
        return Limited(429, "Too Many Requests", opts.message);
      }
      o := Pass;
    }
  }

  // ---------------------------------------------------------------------
  // Properties over runs of requests from one address

  /** The entry after requests at the given times, and how many of them passed. */
  function Run(e: Option<Entry>, times: seq<int>, s: Settings): (r: (Option<Entry>, nat))
    ensures r.1 <= |times|
    ensures times != [] ==> r.0.Some?
    decreases |times|
  {
    if times == [] then (e, 0)
    else
      var h := Hit(e, times[0], s);
      var rest := Run(Some(h.0), times[1..], s);
      (rest.0, rest.1 + if h.1 == Pass then 1 else 0)
  }

  /** Requests that come while a window is open only count up: each one adds one, and a
      request passes only while the count stays within the maximum. */
  lemma {:induction false} OpenWindowRun(e: Entry, times: seq<int>, s: Settings)
    requires forall i :: 0 <= i < |times| ==> times[i] <= e.resetTime
    ensures Run(Some(e), times, s).0 == Some(Entry(e.count + |times|, e.resetTime))
    ensures Run(Some(e), times, s).1 <= if s.max - e.count > 0 then s.max - e.count else 0
    decreases |times|
  {
    if times != [] {
      var h := Hit(Some(e), times[0], s);
      OpenWindowRun(h.0, times[1..], s);
    }
  }

  /** Within one window at most `max` requests from one address pass (for a maximum of at
      least one); the first request of a window always passes, so a maximum of zero or less
      still lets one request through per window. */
  lemma WindowAdmitsAtMostMax(e: Option<Entry>, times: seq<int>, s: Settings)
    requires |times| >= 1 && (e.None? || e.value.resetTime < times[0])
    requires forall i :: 0 <= i < |times| ==> times[i] <= times[0] + s.windowMs
    ensures s.max >= 1 ==> Run(e, times, s).1 <= s.max
    ensures s.max <= 0 ==> Run(e, times, s).1 == 1
    ensures Run(e, times, s).1 >= 1
  {
    var first := Entry(1, times[0] + s.windowMs);
    assert Hit(e, times[0], s) == (first, Pass);
    var tail := times[1..];
    assert forall i :: 0 <= i < |tail| ==> tail[i] == times[i + 1];
    OpenWindowRun(first, tail, s);
    assert Run(e, times, s).1 == Run(Some(first), tail, s).1 + 1;
  }

  // ---------------------------------------------------------------------
  // Mounting in a route

  /** What one handler of an Express route does with a request: hand it on with `next()`,
      answer it, or return having done neither, which leaves the request unanswered. */
  datatype Step = Next | Answered(status: nat) | Stalled

  /** A route's middleware in order: the request reaches the route handler (`Next`) when
      every step hands it on, and otherwise ends at the first step that does not. */
  function Chain(steps: seq<Step>): (r: Step)
    ensures r == Next <==> forall i :: 0 <= i < |steps| ==> steps[i] == Next
    ensures r != Next ==> exists i :: 0 <= i < |steps| && steps[i] == r && forall j :: 0 <= j < i ==> steps[j] == Next
    decreases |steps|
  {
    if steps == [] then Next
    else if steps[0] == Next then
      var r := Chain(steps[1..]);
      assert forall i :: 1 <= i < |steps| ==> steps[i] == steps[1..][i - 1];
      r
    else steps[0]
  }

  /** A limiter's outcome as a step: it hands the request on or answers 429, never neither. */
  function LimiterStep(o: Outcome): (r: Step)
    ensures r == Next <==> o == Pass
    ensures o.Limited? ==> r == Answered(o.status)
  {
    if o == Pass then Next else Answered(o.status)
  }

  /** The module's export `rateLimit` mounted as a middleware itself: called with
      `(req, res, next)`, it takes the request as its options, builds and returns a new
      limiter, and neither calls `next` nor answers. */
  function FactoryStep(requestAsOptions: Options): Step
  {
    Stalled
  }

  /** As mounted, the factory ends every request the steps before it hand on: the request
      is never answered and never reaches the route handler, whatever follows. */
  lemma {:induction false} FactoryMountedStalls(before: seq<Step>, requestAsOptions: Options, after: seq<Step>)
    requires forall i :: 0 <= i < |before| ==> before[i] == Next
    ensures Chain(before + [FactoryStep(requestAsOptions)] + after) == Stalled
    decreases |before|
  {
    var steps := before + [FactoryStep(requestAsOptions)] + after;
    if before == [] {
      assert steps[0] == Stalled;
    } else {
      assert steps[1..] == before[1..] + [FactoryStep(requestAsOptions)] + after;
      FactoryMountedStalls(before[1..], requestAsOptions, after);
    }
  }

  /** With a limiter mounted instead (`rateLimiter()`), a request handed on to it is
      answered or handed on: it is left unanswered only by a later step that does so, and
      it reaches the handler when the limiter passes it and every later step hands it on. */
  lemma {:induction false} InstanceMountedAnswers(before: seq<Step>, e: Option<Entry>, now: int, s: Settings, after: seq<Step>)
    requires forall i :: 0 <= i < |before| ==> before[i] == Next
    ensures (forall i :: 0 <= i < |after| ==> after[i] != Stalled) ==>
      Chain(before + [LimiterStep(Hit(e, now, s).1)] + after) != Stalled
    ensures Hit(e, now, s).1 == Pass && (forall i :: 0 <= i < |after| ==> after[i] == Next) ==>
      Chain(before + [LimiterStep(Hit(e, now, s).1)] + after) == Next
    decreases |before|
  {
    var x := LimiterStep(Hit(e, now, s).1);
    var steps := before + [x] + after;
    if before == [] {
      assert steps == [x] + after;
      assert steps[1..] == after;
      assert forall i :: 0 <= i < |after| ==> steps[i + 1] == after[i];
    } else {
      assert steps[1..] == before[1..] + [x] + after;
      InstanceMountedAnswers(before[1..], e, now, s, after);
    }
  }
}
