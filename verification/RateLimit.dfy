// The per-IP rate limiter and its janitor: forgetting idle visitors must not show.
module RateLimit {
  import Sums

  // A reading of the clock, in nanoseconds.
  type Instant = int

  // Ten minutes.
  const TTL: Instant := 600_000_000_000

  // A bucket refills `rpm` units a nanosecond, so a token is a minute's worth of them.
  const TOKEN: int := 60_000_000_000

  // Requests a minute and bucket size, as configured.
  datatype Limits = Limits(rpm: int, burst: int) {
    // rate.Limiter does not refill at a zero or negative rate.
    function Rate(): nat {
      if rpm > 0 then rpm else 0
    }

    function Full(): int {
      burst * TOKEN
    }
  }

  // A rate.Limiter: what was left when it last let a request through.
  datatype Bucket = Bucket(units: int, last: Instant)

  datatype Visitor = Visitor(bucket: Bucket, lastSeen: Instant)

  function Level(l: Limits, b: Bucket, at: Instant): int {
    var refilled := b.units + l.Rate() * (if at < b.last then 0 else at - b.last);
    if refilled < l.Full() then refilled else l.Full()
  }

  datatype Verdict = Verdict(allowed: bool, bucket: Bucket)

  function Take(l: Limits, b: Bucket, at: Instant): Verdict {
    if Level(l, b, at) >= TOKEN then Verdict(true, Bucket(Level(l, b, at) - TOKEN, at)) else Verdict(false, b)
  }

  // ---------------------------------------------------------------- the visitor map as values

  type Visitors = map<string, Visitor>

  function BucketFor(l: Limits, m: Visitors, ip: string, at: Instant): Bucket {
    if ip in m then m[ip].bucket else Bucket(l.Full(), at)
  }

  function Admit(l: Limits, m: Visitors, ip: string, at: Instant): Visitors {
    m[ip := Visitor(Take(l, BucketFor(l, m, ip, at), at).bucket, at)]
  }

  function Forget(m: Visitors, at: Instant): Visitors {
    map ip | ip in m && !(m[ip].lastSeen < at - TTL) :: m[ip]
  }

  // ---------------------------------------------------------------- the limiter itself

  class IPRateLimiter {
    var visitors: Visitors
    const limits: Limits

    constructor (rpm: int, burst: int)
      ensures visitors == map[] && limits == Limits(rpm, burst)
    {
      visitors := map[];
      limits := Limits(rpm, burst);
    }

    // The bucket of this address, made on first sight; seeing it is recorded.
    method LimiterFor(ip: string, now: Instant) returns (b: Bucket)
      modifies this
      ensures b == BucketFor(limits, old(visitors), ip, now)
      ensures visitors == old(visitors)[ip := Visitor(b, now)]
    {
      if ip !in visitors {
        visitors := visitors[ip := Visitor(Bucket(limits.Full(), now), now)];
      }
      visitors := visitors[ip := visitors[ip].(lastSeen := now)];
      b := visitors[ip].bucket;
    }

    method Allow(ip: string, now: Instant) returns (allowed: bool)
      modifies this
      ensures allowed == Take(limits, BucketFor(limits, old(visitors), ip, now), now).allowed
      ensures visitors == Admit(limits, old(visitors), ip, now)
    {
      var b := LimiterFor(ip, now);
      var v := Take(limits, b, now);
      visitors := visitors[ip := Visitor(v.bucket, now)];
      allowed := v.allowed;
    }

    // The janitor visits the addresses in no particular order.
    method Evict(now: Instant)
      modifies this
      ensures visitors == Forget(old(visitors), now)
      ensures visitors.Keys <= old(visitors.Keys)
      ensures forall ip :: ip in old(visitors) ==>
        if now - old(visitors)[ip].lastSeen <= 600_000_000_000
        then ip in visitors && visitors[ip] == old(visitors)[ip]
        else ip !in visitors
    {
      var cutoff := now - TTL;
      var rest := visitors.Keys;
      ghost var was := visitors;
      while rest != {}
        invariant rest <= was.Keys && visitors.Keys <= was.Keys
        invariant forall ip :: ip in rest ==> ip in visitors
        invariant forall ip :: ip in visitors ==> visitors[ip] == was[ip]
        invariant forall ip :: ip in was && ip !in rest ==> (ip in visitors <==> !(was[ip].lastSeen < cutoff))
        decreases rest
      {
        var ip :| ip in rest;
        rest := rest - {ip};
        if visitors[ip].lastSeen < cutoff {
          visitors := visitors - {ip};
        }
      }
    }
  }

  // ---------------------------------------------------------------- traces

  datatype Event = Request(ip: string, at: Instant) | Evict(at: Instant)

  datatype Served = Served(visitors: Visitors, answers: seq<bool>)

  // One answer for every event; an eviction answers nothing, written false.
  function Serve(l: Limits, evicting: bool, trace: seq<Event>): (r: Served)
    ensures |r.answers| == |trace|
  {
    if trace == [] then Served(map[], [])
    else
      var before := Serve(l, evicting, trace[..|trace| - 1]);
      match trace[|trace| - 1]
      case Request(ip, at) =>
        Served(Admit(l, before.visitors, ip, at),
               before.answers + [Take(l, BucketFor(l, before.visitors, ip, at), at).allowed])
      case Evict(at) =>
        Served(if evicting then Forget(before.visitors, at) else before.visitors, before.answers + [false])
  }

  ghost predicate InTime(trace: seq<Event>) {
    forall i, j :: 0 <= i < j < |trace| ==> trace[i].at <= trace[j].at
  }

  // ---------------------------------------------------------------- buckets over time

  // Looking at a bucket in between makes no difference to it.
  lemma LevelLater(l: Limits, b: Bucket, at: Instant, later: Instant)
    requires b.last <= at <= later
    ensures var refilled := Level(l, b, at) + l.Rate() * (later - at);
      Level(l, b, later) == if refilled < l.Full() then refilled else l.Full()
    ensures 0 <= l.Rate() * (later - at)
  {
    Sums.Distribute(l.Rate(), at - b.last, later - at);
  }

  // What every bucket in a map satisfies at time `at`.
  ghost predicate BucketOk(l: Limits, v: Visitor, at: Instant) {
    && v.bucket.last <= v.lastSeen <= at
    && (0 <= v.bucket.units || v.bucket.units == l.Full())
    && v.bucket.units <= l.Full()
  }

  ghost predicate VisitorsOk(l: Limits, m: Visitors, at: Instant) {
    forall ip :: ip in m ==> BucketOk(l, m[ip], at)
  }

  // From `at` on the two buckets cannot be told apart.
  ghost predicate Alike(l: Limits, a: Bucket, b: Bucket, at: Instant) {
    a.last <= at && b.last <= at && Level(l, a, at) == Level(l, b, at)
  }

  lemma AlikeLater(l: Limits, a: Bucket, b: Bucket, at: Instant, later: Instant)
    requires Alike(l, a, b, at) && at <= later
    ensures Alike(l, a, b, later)
  {
    LevelLater(l, a, at, later);
    LevelLater(l, b, at, later);
  }

  // ---------------------------------------------------------------- eviction

  // An idle bucket is full again before the janitor takes it away.
  ghost predicate RefillsInTime(l: Limits) {
    l.Full() <= l.Rate() * (TTL + 1)
  }

  lemma FullWhenEvicted(l: Limits, v: Visitor, at: Instant)
    requires RefillsInTime(l) && BucketOk(l, v, at) && v.lastSeen < at - TTL
    ensures Level(l, v.bucket, at) == l.Full()
  {
    Sums.Distribute(l.Rate(), TTL + 1, at - v.bucket.last - (TTL + 1));
    assert 0 <= l.Rate() * (at - v.bucket.last - (TTL + 1));
    if v.bucket.units < 0 {
      assert v.bucket.units == l.Full() && 0 <= l.Rate() * (at - v.bucket.last);
    }
  }

  // The evicting map e and the map k that forgets nobody give the same answers from `at` on.
  ghost predicate Agree(l: Limits, e: Visitors, k: Visitors, at: Instant) {
    && VisitorsOk(l, e, at) && VisitorsOk(l, k, at)
    && (forall ip :: ip in e ==>
          ip in k && e[ip].lastSeen == k[ip].lastSeen && Alike(l, e[ip].bucket, k[ip].bucket, at))
    && (forall ip :: ip in k && ip !in e ==> Level(l, k[ip].bucket, at) == l.Full())
  }

  lemma AgreeLater(l: Limits, e: Visitors, k: Visitors, at: Instant, later: Instant)
    requires Agree(l, e, k, at) && at <= later
    ensures Agree(l, e, k, later)
  {
    forall ip | ip in k
      ensures if ip in e then Alike(l, e[ip].bucket, k[ip].bucket, later) else Level(l, k[ip].bucket, later) == l.Full()
    {
      if ip in e {
        AlikeLater(l, e[ip].bucket, k[ip].bucket, at, later);
      } else {
        LevelLater(l, k[ip].bucket, at, later);
      }
    }
  }

  lemma RequestAgrees(l: Limits, e: Visitors, k: Visitors, ip: string, at: Instant)
    requires Agree(l, e, k, at)
    ensures Agree(l, Admit(l, e, ip, at), Admit(l, k, ip, at), at)
    ensures Take(l, BucketFor(l, e, ip, at), at).allowed == Take(l, BucketFor(l, k, ip, at), at).allowed
  {
    assert Level(l, Bucket(l.Full(), at), at) == l.Full();
    var a, b := BucketFor(l, e, ip, at), BucketFor(l, k, ip, at);
    assert Level(l, a, at) == Level(l, b, at);
    var v, w := Take(l, a, at), Take(l, b, at);
    assert Alike(l, v.bucket, w.bucket, at);
  }

  lemma EvictAgrees(l: Limits, e: Visitors, k: Visitors, at: Instant)
    requires RefillsInTime(l) && Agree(l, e, k, at)
    ensures Agree(l, Forget(e, at), k, at)
  {
    forall ip | ip in k && ip !in Forget(e, at)
      ensures Level(l, k[ip].bucket, at) == l.Full()
    {
      if ip in e {
        FullWhenEvicted(l, k[ip], at);
      }
    }
  }

  ghost function LastTime(trace: seq<Event>): Instant
    requires trace != []
  {
    trace[|trace| - 1].at
  }

  lemma {:induction false} ServeAgrees(l: Limits, trace: seq<Event>)
    requires RefillsInTime(l) && InTime(trace)
    ensures Serve(l, true, trace).answers == Serve(l, false, trace).answers
    ensures trace != [] ==>
      Agree(l, Serve(l, true, trace).visitors, Serve(l, false, trace).visitors, LastTime(trace))
  {
    if trace != [] {
      var front, at := trace[..|trace| - 1], LastTime(trace);
      ServeAgrees(l, front);
      var e, k := Serve(l, true, front).visitors, Serve(l, false, front).visitors;
      if front == [] {
        assert Agree(l, e, k, at);
      } else {
        AgreeLater(l, e, k, LastTime(front), at);
      }
      match trace[|trace| - 1] {
        case Request(ip, _) => RequestAgrees(l, e, k, ip, at);
        case Evict(_) => EvictAgrees(l, e, k, at);
      }
    }
  }

  // ---------------------------------------------------------------- when eviction would show

  function Repeat(ip: string, at: Instant, n: nat): seq<Event> {
    seq(n, i => Request(ip, at))
  }

  ghost function LevelOf(l: Limits, m: Visitors, ip: string, at: Instant): int {
    Level(l, BucketFor(l, m, ip, at), at)
  }

  ghost predicate AllAllowed(answers: seq<bool>, from: nat) {
    forall i :: from <= i < |answers| ==> answers[i]
  }

  // One request: a token if there is one, and nothing else changes.
  lemma OneRequest(l: Limits, m: Visitors, ip: string, at: Instant)
    requires VisitorsOk(l, m, at)
    ensures var before, after := LevelOf(l, m, ip, at), LevelOf(l, Admit(l, m, ip, at), ip, at);
      && VisitorsOk(l, Admit(l, m, ip, at), at)
      && (Take(l, BucketFor(l, m, ip, at), at).allowed <==> TOKEN <= before)
      && (TOKEN <= before ==> after == before - TOKEN)
  {
  }

  lemma ServeRequest(l: Limits, evicting: bool, trace: seq<Event>, ip: string, at: Instant)
    ensures var r, m := Serve(l, evicting, trace + [Request(ip, at)]), Serve(l, evicting, trace);
      && r.visitors == Admit(l, m.visitors, ip, at)
      && r.answers == m.answers + [Take(l, BucketFor(l, m.visitors, ip, at), at).allowed]
  {
    var whole := trace + [Request(ip, at)];
    assert whole[..|whole| - 1] == trace;
  }

  // Requests at one instant are let through one token each, as long as there is one.
  lemma {:induction false} Burst(l: Limits, evicting: bool, trace: seq<Event>, ip: string, at: Instant, n: nat)
    requires VisitorsOk(l, Serve(l, evicting, trace).visitors, at)
    ensures var r := Serve(l, evicting, trace + Repeat(ip, at, n));
      var before := LevelOf(l, Serve(l, evicting, trace).visitors, ip, at);
      && VisitorsOk(l, r.visitors, at)
      && (AllAllowed(r.answers, |trace|) ==> LevelOf(l, r.visitors, ip, at) == before - n * TOKEN)
      && (n * TOKEN <= before ==> AllAllowed(r.answers, |trace|))
      && (n > 0 && AllAllowed(r.answers, |trace|) ==> 0 <= LevelOf(l, r.visitors, ip, at))
      && (n > 0 ==> ip in r.visitors && r.visitors[ip].lastSeen == at)
  {
    if n == 0 {
      assert trace + Repeat(ip, at, n) == trace;
    } else {
      Burst(l, evicting, trace, ip, at, n - 1);
      var shorter := trace + Repeat(ip, at, n - 1);
      var m := Serve(l, evicting, shorter);
      assert trace + Repeat(ip, at, n) == shorter + [Request(ip, at)];
      ServeRequest(l, evicting, shorter, ip, at);
      OneRequest(l, m.visitors, ip, at);
      AllAllowedAppend(m.answers, |trace|, Take(l, BucketFor(l, m.visitors, ip, at), at).allowed);
    }
  }

  lemma AllAllowedAppend(answers: seq<bool>, from: nat, last: bool)
    requires from <= |answers|
    ensures AllAllowed(answers + [last], from) <==> AllAllowed(answers, from) && last
  {
    var whole := answers + [last];
    assert whole[|answers|] == last;
    assert forall i :: 0 <= i < |answers| ==> whole[i] == answers[i];
  }

  // Drain the bucket, wait until the janitor has just come by, and try again.
  function Probe(l: Limits, ip: string): seq<Event>
    requires 0 < l.burst
  {
    Repeat(ip, 0, l.burst) + [Evict(TTL + 1)]
  }

  lemma ProbeLevels(l: Limits, ip: string)
    requires 0 < l.burst && !RefillsInTime(l)
    ensures var e, k := Serve(l, true, Probe(l, ip)).visitors, Serve(l, false, Probe(l, ip)).visitors;
      && VisitorsOk(l, e, TTL + 1) && VisitorsOk(l, k, TTL + 1)
      && LevelOf(l, e, ip, TTL + 1) == l.Full()
      && LevelOf(l, k, ip, TTL + 1) < l.Full()
  {
    var drained := Repeat(ip, 0, l.burst);
    assert Probe(l, ip)[..|Probe(l, ip)| - 1] == drained;
    Drained(l, true, ip);
    Drained(l, false, ip);
    ForgottenIsFull(l, Serve(l, true, drained).visitors, ip);
    KeptRefills(l, Serve(l, false, drained).visitors, ip);
  }

  lemma ForgottenIsFull(l: Limits, m: Visitors, ip: string)
    requires VisitorsOk(l, m, 0) && ip in m && m[ip].lastSeen == 0
    ensures VisitorsOk(l, Forget(m, TTL + 1), TTL + 1)
    ensures LevelOf(l, Forget(m, TTL + 1), ip, TTL + 1) == l.Full()
  {
    assert ip !in Forget(m, TTL + 1);
  }

  lemma KeptRefills(l: Limits, m: Visitors, ip: string)
    requires VisitorsOk(l, m, 0) && ip in m && Level(l, m[ip].bucket, 0) == 0 && !RefillsInTime(l)
    ensures VisitorsOk(l, m, TTL + 1) && LevelOf(l, m, ip, TTL + 1) < l.Full()
  {
    LevelLater(l, m[ip].bucket, 0, TTL + 1);
  }

  // A full burst empties a new bucket.
  lemma Drained(l: Limits, evicting: bool, ip: string)
    requires 0 < l.burst
    ensures var m := Serve(l, evicting, Repeat(ip, 0, l.burst)).visitors;
      VisitorsOk(l, m, 0) && ip in m && m[ip].lastSeen == 0 && Level(l, m[ip].bucket, 0) == 0
  {
    assert [] + Repeat(ip, 0, l.burst) == Repeat(ip, 0, l.burst);
    assert LevelOf(l, map[], ip, 0) == l.Full();
    Burst(l, evicting, [], ip, 0, l.burst);
  }

  lemma EvictionShows(l: Limits, ip: string)
    requires 0 < l.burst && !RefillsInTime(l)
    ensures exists trace :: InTime(trace) && Serve(l, true, trace).answers != Serve(l, false, trace).answers
  {
    var probe := Probe(l, ip);
    var trace := probe + Repeat(ip, TTL + 1, l.burst);
    ProbeLevels(l, ip);
    Burst(l, true, probe, ip, TTL + 1, l.burst);
    Burst(l, false, probe, ip, TTL + 1, l.burst);
    assert AllAllowed(Serve(l, true, trace).answers, |probe|);
    assert !AllAllowed(Serve(l, false, trace).answers, |probe|);
    assert InTime(trace);
  }

  // Forgetting idle addresses changes no answer, in any sequence of requests and
  // evictions, exactly if an empty bucket fills up before it can be forgotten.
  lemma EvictionInvisibleExactly(l: Limits)
    ensures (forall trace :: InTime(trace) ==> Serve(l, true, trace).answers == Serve(l, false, trace).answers)
      <==> l.burst * 60_000_000_000 <= (if l.rpm > 0 then l.rpm else 0) * 600_000_000_001
  {
    if RefillsInTime(l) {
      forall trace | InTime(trace)
        ensures Serve(l, true, trace).answers == Serve(l, false, trace).answers
      {
        ServeAgrees(l, trace);
      }
    } else {
      EvictionShows(l, "");
    }
  }

  // Ten minutes' worth of requests covering the burst is enough.
  lemma TenMinutesSuffice(l: Limits)
    requires l.burst <= 10 * l.Rate()
    ensures RefillsInTime(l)
  {
  }

  // ---------------------------------------------------------------- how much gets through

  function LetsThrough(ip: string, e: Event, answer: bool): nat {
    if answer && e.Request? && e.ip == ip then 1 else 0
  }

  // Requests of this address let through among events i up to n.
  function Allowed(ip: string, trace: seq<Event>, answers: seq<bool>, i: nat, n: nat): nat
    requires i <= n <= |trace| && |answers| == |trace|
    decreases n
  {
    if n == i then 0
    else Allowed(ip, trace, answers, i, n - 1) + LetsThrough(ip, trace[n - 1], answers[n - 1])
  }

  lemma ServePrefix(l: Limits, trace: seq<Event>, n: nat)
    requires n < |trace|
    ensures Serve(l, false, trace).answers[..n] == Serve(l, false, trace[..n]).answers
  {
    if n < |trace| - 1 {
      ServePrefix(l, trace[..|trace| - 1], n);
      assert trace[..|trace| - 1][..n] == trace[..n];
      assert Serve(l, false, trace).answers[..n] == Serve(l, false, trace[..|trace| - 1]).answers[..n];
    }
  }

  lemma AllowedPrefix(ip: string, trace: seq<Event>, answers: seq<bool>, i: nat, n: nat)
    requires i <= n <= |trace| && |answers| == |trace|
    ensures Allowed(ip, trace, answers, i, n) == Allowed(ip, trace[..n], answers[..n], i, n)
    decreases n
  {
    if i < n {
      AllowedPrefix(ip, trace, answers, i, n - 1);
      AllowedPrefix(ip, trace[..n], answers[..n], i, n - 1);
      assert trace[..n][..n - 1] == trace[..n - 1] && answers[..n][..n - 1] == answers[..n - 1];
    }
  }

  lemma {:induction false} ServeOk(l: Limits, trace: seq<Event>)
    requires InTime(trace) && trace != []
    ensures VisitorsOk(l, Serve(l, false, trace).visitors, LastTime(trace))
  {
    var front := trace[..|trace| - 1];
    if front != [] {
      ServeOk(l, front);
    }
    if trace[|trace| - 1].Request? {
      OneRequest(l, Serve(l, false, front).visitors, trace[|trace| - 1].ip, LastTime(trace));
    }
  }

  // Between two moments a bucket gains at most the refill.
  lemma Refill(l: Limits, m: Visitors, ip: string, at: Instant, later: Instant)
    requires VisitorsOk(l, m, at) && at <= later
    ensures LevelOf(l, m, ip, later) <= LevelOf(l, m, ip, at) + l.Rate() * (later - at)
  {
    if ip in m {
      LevelLater(l, m[ip].bucket, at, later);
    }
  }

  // An event lets a request through for a token and gives nobody anything.
  lemma EventOutflow(l: Limits, ip: string, trace: seq<Event>)
    requires trace != [] && InTime(trace)
    ensures var front, r := trace[..|trace| - 1], Serve(l, false, trace);
      TOKEN * LetsThrough(ip, trace[|trace| - 1], r.answers[|trace| - 1]) + LevelOf(l, r.visitors, ip, LastTime(trace))
        <= LevelOf(l, Serve(l, false, front).visitors, ip, LastTime(trace))
  {
    var front, last := trace[..|trace| - 1], trace[|trace| - 1];
    if front != [] {
      ServeOk(l, front);
    }
    if last.Request? {
      OneRequest(l, Serve(l, false, front).visitors, last.ip, last.at);
    }
  }

  // What got through and what is left came out of one full bucket and its refill.
  lemma {:induction false} Outflow(l: Limits, ip: string, trace: seq<Event>, i: nat)
    requires InTime(trace) && i < |trace|
    ensures var r := Serve(l, false, trace);
      TOKEN * Allowed(ip, trace, r.answers, i, |trace|) + LevelOf(l, r.visitors, ip, LastTime(trace))
        <= l.Full() + l.Rate() * (LastTime(trace) - trace[i].at)
  {
    var front, at := trace[..|trace| - 1], LastTime(trace);
    EventOutflow(l, ip, trace);
    AllowedLast(l, ip, trace, i);
    if i < |front| {
      var was := LastTime(front);
      Outflow(l, ip, front, i);
      ServeOk(l, front);
      Refill(l, Serve(l, false, front).visitors, ip, was, at);
      Spans(l.Rate(), trace[i].at, was, at);
    } else {
      assert l.Rate() * (at - trace[i].at) == 0;
    }
  }

  lemma Spans(rate: int, start: Instant, middle: Instant, end: Instant)
    ensures rate * (middle - start) + rate * (end - middle) == rate * (end - start)
  {
    Sums.Distribute(rate, middle - start, end - middle);
  }

  lemma AllowedLast(l: Limits, ip: string, trace: seq<Event>, i: nat)
    requires i < |trace|
    ensures var front, answers := trace[..|trace| - 1], Serve(l, false, trace).answers;
      Allowed(ip, trace, answers, i, |trace|) ==
        Allowed(ip, front, Serve(l, false, front).answers, i, |front|)
        + LetsThrough(ip, trace[|trace| - 1], answers[|trace| - 1])
  {
    var front, answers := trace[..|trace| - 1], Serve(l, false, trace).answers;
    assert answers[..|trace| - 1] == Serve(l, false, front).answers;
    AllowedPrefix(ip, trace, answers, i, |trace| - 1);
  }

  // The events after the window do not matter.
  lemma WindowOnly(l: Limits, ip: string, trace: seq<Event>, i: nat, n: nat)
    requires i < n <= |trace|
    ensures Allowed(ip, trace, Serve(l, false, trace).answers, i, n) ==
      Allowed(ip, trace[..n], Serve(l, false, trace[..n]).answers, i, n)
  {
    var answers := Serve(l, false, trace).answers;
    AllowedPrefix(ip, trace, answers, i, n);
    if n < |trace| {
      ServePrefix(l, trace, n);
    } else {
      assert trace[..n] == trace && answers[..n] == answers;
    }
  }

  // In any window an address gets at most a burst plus the refill of that window
  // through, with the janitor running or not.
  lemma WindowBound(l: Limits, ip: string, trace: seq<Event>, i: nat, n: nat, evicting: bool)
    requires 0 <= l.burst && InTime(trace) && i < n <= |trace|
    requires evicting ==> RefillsInTime(l)
    ensures 60_000_000_000 * Allowed(ip, trace, Serve(l, evicting, trace).answers, i, n)
      <= l.burst * 60_000_000_000 + (if l.rpm > 0 then l.rpm else 0) * (trace[n - 1].at - trace[i].at)
  {
    if evicting {
      ServeAgrees(l, trace);
    }
    WindowOnly(l, ip, trace, i, n);
    Outflow(l, ip, trace[..n], i);
    assert 0 <= LevelOf(l, Serve(l, false, trace[..n]).visitors, ip, trace[n - 1].at) by {
      ServeOk(l, trace[..n]);
      LevelNotNegative(l, Serve(l, false, trace[..n]).visitors, ip, trace[n - 1].at);
    }
  }

  // In any minute an address gets at most the burst and a minute's requests through.
  lemma MinuteBound(l: Limits, ip: string, trace: seq<Event>, i: nat, n: nat, evicting: bool)
    requires 0 <= l.burst && 0 <= l.rpm && InTime(trace) && i < n <= |trace|
    requires evicting ==> RefillsInTime(l)
    requires trace[n - 1].at - trace[i].at <= 60_000_000_000
    ensures Allowed(ip, trace, Serve(l, evicting, trace).answers, i, n) <= l.burst + l.rpm
  {
    WindowBound(l, ip, trace, i, n, evicting);
    Scaled(l.rpm, trace[n - 1].at - trace[i].at, 60_000_000_000);
  }

  lemma Scaled(rate: nat, a: int, b: int)
    requires a <= b
    ensures rate * a <= rate * b
  {
    Sums.Distribute(rate, a, b - a);
  }

  // And it does get that much: a new address has its whole burst let through at once,
  // and the next request exactly once the rate has earned it, one for 60 s / rpm.
  lemma NextAfterBurst(l: Limits, ip: string, wait: nat, evicting: bool)
    requires 0 < l.burst
    ensures var answers := Serve(l, evicting, Repeat(ip, 0, l.burst) + [Request(ip, wait)]).answers;
      && |answers| == l.burst + 1
      && (forall i :: 0 <= i < l.burst ==> answers[i])
      && (answers[l.burst] <==> 60_000_000_000 <= (if l.rpm > 0 then l.rpm else 0) * wait)
  {
    var drained := Repeat(ip, 0, l.burst);
    assert AllAllowed(Serve(l, evicting, drained).answers, 0) by {
      assert [] + drained == drained;
      assert LevelOf(l, map[], ip, 0) == l.Full();
      Burst(l, evicting, [], ip, 0, l.burst);
    }
    Drained(l, evicting, ip);
    ServeRequest(l, evicting, drained, ip, wait);
    EarnsAToken(l, Serve(l, evicting, drained).visitors[ip].bucket, wait);
  }

  lemma EarnsAToken(l: Limits, b: Bucket, wait: nat)
    requires 0 < l.burst && b.last <= 0 && Level(l, b, 0) == 0
    ensures TOKEN <= Level(l, b, wait) <==> TOKEN <= l.Rate() * wait
  {
    LevelLater(l, b, 0, wait);
  }

  lemma LevelNotNegative(l: Limits, m: Visitors, ip: string, at: Instant)
    requires 0 <= l.burst && VisitorsOk(l, m, at)
    ensures 0 <= LevelOf(l, m, ip, at)
  {
    if ip in m {
      LevelLater(l, m[ip].bucket, m[ip].bucket.last, at);
    }
  }
}
