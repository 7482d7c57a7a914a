// Rule 4: how old an organic pickup that nobody picked up can get.
module Staleness {
  import opened Domain
  import opened Tables
  import opened Atomic
  import opened System
  import opened Invariants

  ghost predicate SweptBy(c: Client) {
    c.request.CancelStaleOrganic? && c.pc.Done? && c.pc.result.Swept?
  }

  ghost predicate OpenOrganic(t: Tables, i: Id) {
    i in t.pickups && t.pickups[i].kind == Organic && Open(t.pickups[i])
  }

  // Nothing still open is older than `slack` before some finished sweep.
  ghost predicate Fresh(s: System, slack: Time) {
    forall k, i :: k in s.clients && SweptBy(s.clients[k]) && OpenOrganic(s.tables, i) ==>
      s.clients[k].now - slack <= s.tables.pickups[i].createdAt
  }

  // The action commits a new pickup at most `lag` after its timestamp was read.
  ghost predicate Timely(s: System, a: Action, lag: Time) {
    a.Go? && a.client in s.clients && a.fault.None? && s.clients[a.client].pc.CommitRow? ==>
      s.clock - s.clients[a.client].now <= lag
  }

  ghost predicate TimelyRun(cfg: Config, s: System, run: seq<Action>, lag: Time)
    requires IsRun(cfg, s, run)
  {
    run != [] ==>
      var front := run[..|run| - 1];
      TimelyRun(cfg, s, front, lag) && Timely(After(cfg, s, front), run[|run| - 1], lag)
  }

  // A step leaves open organic pickups alone, closes them, or commits the one new row.
  lemma OpenOrganicSource(cfg: Config, s: System, c: Client, draw: Id, fault: Option<Error>, i: Id)
    requires Acting(cfg, s, c, draw)
    requires OpenOrganic(Step(cfg, s, c, draw, fault).tables, i)
    ensures var u := Step(cfg, s, c, draw, fault).tables;
      || (OpenOrganic(s.tables, i) && u.pickups[i].createdAt == s.tables.pickups[i].createdAt)
      || (fault.None? && c.pc.CommitRow? && c.request.CreatePickup? && u.pickups[i] == NewRow(c))
  {
  }

  // A sweep that has just finished left nothing open from before its cutoff.
  lemma SweepClears(cfg: Config, s: System, c: Client, draw: Id, fault: Option<Error>, i: Id)
    requires Acting(cfg, s, c, draw)
    requires var m := Step(cfg, s, c, draw, fault); SweptBy(m.client) && OpenOrganic(m.tables, i)
    ensures var m := Step(cfg, s, c, draw, fault); m.client.now - cfg.organicTTL <= m.tables.pickups[i].createdAt
  {
  }

  // What the sweeps and the lag of inserts leave: a row is as young as the larger of both.
  function Slack(cfg: Config, lag: Time): Time {
    if cfg.organicTTL <= lag then lag else cfg.organicTTL
  }

  lemma GoKeepsFresh(cfg: Config, s: System, a: Action, lag: Time)
    requires Inv(cfg, s) && Fresh(s, Slack(cfg, lag)) && Enabled(cfg, s, a) && a.Go? && Timely(s, a, lag)
    ensures Fresh(Next(cfg, s, a), Slack(cfg, lag))
  {
    var c, s' := s.clients[a.client], Next(cfg, s, a);
    assert Ready(cfg, s, c, a.draw);
    forall k, i | k in s'.clients && SweptBy(s'.clients[k]) && OpenOrganic(s'.tables, i)
      ensures s'.clients[k].now - Slack(cfg, lag) <= s'.tables.pickups[i].createdAt
    {
      if k == a.client {
        SweepClears(cfg, s, c, a.draw, a.fault, i);
      } else {
        assert ClientOk(cfg, s, s.clients[k]);
        OpenOrganicSource(cfg, s, c, a.draw, a.fault, i);
      }
    }
  }

  lemma {:induction false} RunKeepsFresh(cfg: Config, s: System, run: seq<Action>, lag: Time)
    requires Initial(s) && IsRun(cfg, s, run) && TimelyRun(cfg, s, run, lag)
    ensures Inv(cfg, After(cfg, s, run)) && Fresh(After(cfg, s, run), Slack(cfg, lag))
  {
    if run == [] {
      InitialInv(cfg, s);
    } else {
      var front := run[..|run| - 1];
      RunKeepsFresh(cfg, s, front, lag);
      NextKeepsInv(cfg, After(cfg, s, front), run[|run| - 1]);
      if run[|run| - 1].Go? {
        GoKeepsFresh(cfg, After(cfg, s, front), run[|run| - 1], lag);
      }
    }
  }

  // A run to s' commits new pickups within `lag` of their timestamp; in s' the sweep of
  // client k has finished and read the clock `gap` ago or later; pickup i is still open.
  ghost predicate StillOpen(cfg: Config, s: System, run: seq<Action>, s': System,
                            lag: Time, gap: Time, k: ClientId, i: Id)
  {
    && Leads(cfg, s, run, s') && TimelyRun(cfg, s, run, lag)
    && k in s'.clients && SweptBy(s'.clients[k]) && s'.clock - s'.clients[k].now <= gap
    && OpenOrganic(s'.tables, i)
  }

  ghost function Age(s: System, i: Id): Time
    requires i in s.tables.pickups
  {
    s.clock - s.tables.pickups[i].createdAt
  }

  // Whatever else runs: nothing organic still pending or scheduled is older than the
  // larger of the time to live and the lag of inserts, plus the gap since the last sweep.
  lemma NoOpenOrganicIsOlder(cfg: Config, s: System, run: seq<Action>, s': System,
                             lag: Time, gap: Time, k: ClientId, i: Id)
    requires StillOpen(cfg, s, run, s', lag, gap, k, i)
    ensures Age(s', i) <= Slack(cfg, lag) + gap
  {
    RunKeepsFresh(cfg, s, run, lag);
  }

  // The lag matters: committing an organic row keeps the bound of the sweeps so far
  // exactly if the row is not older than what the latest of them took away.
  lemma LateInsertExactly(cfg: Config, s: System, a: Action)
    requires Inv(cfg, s) && Fresh(s, cfg.organicTTL) && Enabled(cfg, s, a) && a.Go? && a.fault.None?
    requires s.clients[a.client].pc.CommitRow? && s.clients[a.client].request.CreatePickup?
    requires s.clients[a.client].request.kind == Organic
    ensures Fresh(Next(cfg, s, a), cfg.organicTTL) <==>
      forall k :: k in s.clients && SweptBy(s.clients[k]) ==>
        s.clients[k].now - cfg.organicTTL <= s.clients[a.client].now
  {
    var c, s' := s.clients[a.client], Next(cfg, s, a);
    assert ClientOk(cfg, s, c);
    var row := NewRow(c);
    assert s'.tables == PutPickup(s.tables, row);
    assert OpenOrganic(s'.tables, row.id);
    forall k | k in s.clients
      ensures SweptBy(s.clients[k]) <==> SweptBy(s'.clients[k])
    {
    }
    forall i | OpenOrganic(s'.tables, i) && i != row.id
      ensures OpenOrganic(s.tables, i) && s'.tables.pickups[i] == s.tables.pickups[i]
    {
    }
  }

  // ---------------------------------------------------------------- the bound is reached

  // A timely run from s0 to s.
  ghost predicate Gets(cfg: Config, s0: System, run: seq<Action>, s: System, lag: Time) {
    Leads(cfg, s0, run, s) && TimelyRun(cfg, s0, run, lag)
  }

  lemma Extend(cfg: Config, s0: System, run: seq<Action>, s: System, a: Action, s': System, lag: Time)
      returns (longer: seq<Action>)
    requires Gets(cfg, s0, run, s, lag)
    requires Enabled(cfg, s, a) && Next(cfg, s, a) == s' && Timely(s, a, lag)
    ensures Gets(cfg, s0, longer, s', lag)
  {
    longer := Follow(cfg, s0, run, s, a, s');
  }

  ghost function OneHousehold(pickups: map<Id, Pickup>): Tables {
    Tables(map[1 := Household(1, "", "", 0, 0)], pickups, map[])
  }

  ghost function Sweeper(called: nat, now: Time, pc: Pc): Client {
    Client(CancelStaleOrganic, called, now, false, 0, None, pc)
  }

  ghost function SweepDone(s: System, k: ClientId, draw: Id): System {
    System(s.tables, s.objects, s.clock, s.used + {draw} + {draw + 1},
      s.clients[k := Sweeper(s.steps, s.clock, Done(Swept(0), s.steps + 2))], s.steps + 3)
  }

  lemma SweepsNothing(cfg: Config, s: System, s2: System, k: ClientId, draw: Id)
    requires draw !in s.used && draw + 1 !in s.used
    requires s2 == s.(clients := s.clients[k := Sweeper(s.steps, s.clock, TryUpdate)],
                      used := s.used + {draw}, steps := s.steps + 2)
    requires forall i :: i in s.tables.pickups ==> !Stale(s.tables.pickups[i], s.clock - cfg.organicTTL)
    ensures Enabled(cfg, s2, Go(k, draw + 1, None)) && Next(cfg, s2, Go(k, draw + 1, None)) == SweepDone(s, k, draw)
  {
    NothingStale(cfg, s.tables, s.clock);
  }

  // A sweep that finds nothing, at any moment.
  lemma IdleSweep(cfg: Config, s0: System, run: seq<Action>, s: System, lag: Time, k: ClientId, draw: Id)
      returns (longer: seq<Action>)
    requires Gets(cfg, s0, run, s, lag) && k !in s.clients && draw !in s.used && draw + 1 !in s.used
    requires forall i :: i in s.tables.pickups ==> !Stale(s.tables.pickups[i], s.clock - cfg.organicTTL)
    ensures Gets(cfg, s0, longer, SweepDone(s, k, draw), lag)
  {
    var s1 := Next(cfg, s, Call(k, CancelStaleOrganic));
    longer := Extend(cfg, s0, run, s, Call(k, CancelStaleOrganic), s1, lag);
    var s2 := s1.(clients := s.clients[k := Sweeper(s.steps, s.clock, TryUpdate)],
                  used := s.used + {draw}, steps := s.steps + 2);
    longer := Extend(cfg, s0, longer, s1, Go(k, draw, None), s2, lag);
    SweepsNothing(cfg, s, s2, k, draw);
    longer := Extend(cfg, s0, longer, s2, Go(k, draw + 1, None), SweepDone(s, k, draw), lag);
  }

  lemma NothingStale(cfg: Config, t: Tables, now: Time)
    requires forall i :: i in t.pickups ==> !Stale(t.pickups[i], now - cfg.organicTTL)
    ensures StaleIds(t, now - cfg.organicTTL) == {} && SweepTables(t, now - cfg.organicTTL, now) == t
  {
  }

  // A pickup of age `ttl` is not older than the cutoff yet; then the next sweep is `gap` away.
  lemma OutlivesByGap(cfg: Config, lag: Time, gap: nat) returns (s: System, run: seq<Action>, s': System)
    requires 0 <= cfg.organicTTL
    ensures StillOpen(cfg, s, run, s', lag, gap, 0, 2) && Age(s', 2) == cfg.organicTTL + gap
  {
    s := System(OneHousehold(map[2 := NewPickup(2, 1, Organic, false, 0)]), {}, 0, {1, 2}, map[], 0);
    run := [];
    assert Gets(cfg, s, run, s, lag);
    var s1 := s.(clock := cfg.organicTTL, steps := 1);
    run := Extend(cfg, s, run, s, Tick(cfg.organicTTL), s1, lag);
    run := IdleSweep(cfg, s, run, s1, lag, 0, 3);
    var s2 := SweepDone(s1, 0, 3);
    s' := s2.(clock := s2.clock + gap, steps := s2.steps + 1);
    run := Extend(cfg, s, run, s2, Tick(gap), s', lag);
  }

  ghost function LateCreator(pc: Pc): Client {
    Client(CreatePickup(1, Organic, false), 0, 0, true, 2, None, pc)
  }

  ghost function NoPickups(): System {
    System(OneHousehold(map[]), {}, 0, {1}, map[], 0)
  }

  ghost function Creating(pc: Pc, used: set<Id>, steps: nat): System {
    System(OneHousehold(map[]), {}, 0, used, map[0 := LateCreator(pc)], steps)
  }

  lemma ReachCreating(cfg: Config, lag: Time) returns (run: seq<Action>)
    ensures Gets(cfg, NoPickups(), run, Creating(CheckPending, {1} + {2}, 2), lag)
  {
    var s, create := NoPickups(), CreatePickup(1, Organic, false);
    run := [];
    assert Gets(cfg, s, run, s, lag);
    var s1 := s.(clients := map[0 := Client(create, 0, 0, false, 0, None, Called)], steps := 1);
    run := Extend(cfg, s, run, s, Call(0, create), s1, lag);
    run := Extend(cfg, s, run, s1, Go(0, 2, None), Creating(CheckPending, {1} + {2}, 2), lag);
  }

  // The creating call has inserted its row, and pauses before the commit.
  lemma ReachUncommitted(cfg: Config, lag: Time) returns (run: seq<Action>)
    ensures Gets(cfg, NoPickups(), run, Creating(CommitRow, {1} + {2} + {3} + {4}, 4), lag)
  {
    var used := {1} + {2} + {3};
    run := ReachCreating(cfg, lag);
    var s2, s3 := Creating(CheckPending, {1} + {2}, 2), Creating(InsertRow, used, 3);
    run := Extend(cfg, NoPickups(), run, s2, Go(0, 3, None), s3, lag);
    run := Extend(cfg, NoPickups(), run, s3, Go(0, 4, None), Creating(CommitRow, used + {4}, 4), lag);
  }

  lemma CommitLate(cfg: Config, run: seq<Action>, s: System, lag: nat) returns (longer: seq<Action>, s': System)
    requires Gets(cfg, NoPickups(), run, s, lag) && s.tables == OneHousehold(map[]) && s.clock == lag && 7 !in s.used
    requires 0 in s.clients && s.clients[0] == LateCreator(CommitRow)
    ensures Gets(cfg, NoPickups(), longer, s', lag)
    ensures s'.clock == s.clock && OpenOrganic(s'.tables, 2) && Age(s', 2) == lag
    ensures forall k :: k in s.clients && k != 0 ==> k in s'.clients && s'.clients[k] == s.clients[k]
  {
    s' := Next(cfg, s, Go(0, 7, None));
    assert s'.tables.pickups == map[2 := NewRow(LateCreator(CommitRow))];
    longer := Extend(cfg, NoPickups(), run, s, Go(0, 7, None), s', lag);
  }

  // A sweep runs while the creating call pauses for `lag`, and does not see its row.
  lemma OutlivesByLag(cfg: Config, lag: nat, gap: nat) returns (run: seq<Action>, s': System)
    ensures StillOpen(cfg, NoPickups(), run, s', lag, gap, 1, 2) && Age(s', 2) == lag + gap
  {
    run := ReachUncommitted(cfg, lag);
    var s4 := Creating(CommitRow, {1} + {2} + {3} + {4}, 4);
    var s5 := s4.(clock := lag, steps := 5);
    run := Extend(cfg, NoPickups(), run, s4, Tick(lag), s5, lag);
    run := IdleSweep(cfg, NoPickups(), run, s5, lag, 1, 5);
    var s9: System;
    run, s9 := CommitLate(cfg, run, SweepDone(s5, 1, 5), lag);
    s' := s9.(clock := s9.clock + gap, steps := s9.steps + 1);
    run := Extend(cfg, NoPickups(), run, s9, Tick(gap), s', lag);
  }

  // No open organic pickup is ever older than `bound`.
  ghost predicate Bounds(cfg: Config, lag: Time, gap: Time, bound: Time) {
    forall s, run, s', k, i :: StillOpen(cfg, s, run, s', lag, gap, k, i) ==> Age(s', i) <= bound
  }

  // Rule 4, exactly as far as it goes: with inserts at most `lag` late and the last sweep
  // at most `gap` ago, an age holds as a bound exactly from this one on.
  lemma BoundExactly(cfg: Config, lag: nat, gap: nat, bound: Time)
    ensures Bounds(cfg, lag, gap, bound) <==> Slack(cfg, lag) + gap <= bound
  {
    if Slack(cfg, lag) + gap <= bound {
      forall s, run, s', k, i | StillOpen(cfg, s, run, s', lag, gap, k, i)
        ensures Age(s', i) <= bound
      {
        NoOpenOrganicIsOlder(cfg, s, run, s', lag, gap, k, i);
      }
    }
    if Bounds(cfg, lag, gap, bound) {
      if 0 <= cfg.organicTTL {
        var s, run, s' := OutlivesByGap(cfg, lag, gap);
      }
      var run, s' := OutlivesByLag(cfg, lag, gap);
    }
  }
}
