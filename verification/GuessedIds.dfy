// What a caller that guesses the id of a pickup not published yet can bring about.
module GuessedIds {
  import opened Domain
  import opened Tables
  import opened TableFacts
  import opened Atomic
  import opened System
  import opened Invariants
  import opened Witness

  // A call arrives that names any id, be it one that is not published yet.
  ghost function Guess(s: System, k: ClientId, r: Request): System {
    s.(clients := s.clients[k := Client(r, s.steps, s.clock, false, 0, None, Called)],
       used := if Target(r).Some? then s.used + {Target(r).value} else s.used,
       steps := s.steps + 1)
  }

  // ---------------------------------------------------------------- what still holds

  ghost function Without(s: System, k: ClientId): System {
    s.(clients := s.clients - {k})
  }

  // The guessing call k aside, everything is as it should be.
  ghost predicate GuessInv(cfg: Config, s: System, k: ClientId) {
    && Inv(cfg, Without(s, k))
    && k in s.clients && s.clients[k].request.Schedule?
    && ShapeOk(s.clients[k]) && TimesOk(s, s.clients[k])
    && s.clients[k].request.id in s.used
  }

  lemma InvGrows(cfg: Config, s: System, s': System)
    requires Inv(cfg, s) && s' == s.(used := s'.used, steps := s'.steps)
    requires s.used <= s'.used && s.steps <= s'.steps
    ensures Inv(cfg, s')
  {
    forall c | c in s'.clients
      ensures ClientOk(cfg, s', s'.clients[c])
    {
      assert ClientOk(cfg, s, s.clients[c]);
    }
  }

  lemma WithoutKeepsInv(cfg: Config, s: System, k: ClientId)
    requires Inv(cfg, s)
    ensures Inv(cfg, Without(s, k))
  {
    forall c | c in Without(s, k).clients
      ensures ClientOk(cfg, Without(s, k), s.clients[c])
    {
      assert ClientOk(cfg, s, s.clients[c]);
    }
  }

  lemma GuessStarts(cfg: Config, s: System, k: ClientId, id: Id, date: Time)
    requires Inv(cfg, s) && k !in s.clients
    ensures GuessInv(cfg, Guess(s, k, Schedule(id, date)), k)
  {
    var w := Without(Guess(s, k, Schedule(id, date)), k);
    assert w.clients == s.clients;
    InvGrows(cfg, s, w);
  }

  // A step does not look at the other clients.
  lemma StepSame(cfg: Config, s: System, t: System, c: Client, draw: Id, fault: Option<Error>)
    requires t == s.(clients := t.clients)
    ensures Step(cfg, t, c, draw, fault) == Step(cfg, s, c, draw, fault)
  {
  }

  lemma NextWithout(cfg: Config, s: System, a: Action, k: ClientId)
    requires k in s.clients && Enabled(cfg, s, a) && !(a.Go? && a.client == k)
    ensures Enabled(cfg, Without(s, k), a) && Next(cfg, Without(s, k), a) == Without(Next(cfg, s, a), k)
    ensures Next(cfg, s, a).clients[k] == s.clients[k]
    ensures s.steps <= Next(cfg, s, a).steps && s.clock <= Next(cfg, s, a).clock && s.used <= Next(cfg, s, a).used
  {
    var w := Without(s, k);
    if a.Go? {
      StepSame(cfg, s, w, s.clients[a.client], a.draw, a.fault);
    }
    assert Without(Next(cfg, s, a), k).clients == Next(cfg, w, a).clients;
  }

  lemma OthersKeepGuess(cfg: Config, s: System, a: Action, k: ClientId)
    requires GuessInv(cfg, s, k) && Enabled(cfg, s, a) && !(a.Go? && a.client == k)
    ensures GuessInv(cfg, Next(cfg, s, a), k) && Advances(s.tables, Next(cfg, s, a).tables)
    ensures Next(cfg, s, a).clients[k] == s.clients[k]
  {
    NextWithout(cfg, s, a, k);
    NextKeepsInv(cfg, Without(s, k), a);
  }

  // Once the pickup is there, the id is as good as named.
  lemma NamedByNow(cfg: Config, s: System, k: ClientId)
    requires GuessInv(cfg, s, k) && s.clients[k].pc.TryUpdate? && s.clients[k].request.id in s.tables.pickups
    ensures Inv(cfg, s)
  {
    var w := Without(s, k);
    forall c | c in s.clients
      ensures ClientOk(cfg, s, s.clients[c])
    {
      assert c != k ==> c in w.clients && ClientOk(cfg, w, w.clients[c]);
    }
    forall c, d | c in s.clients && d in s.clients && c != d
      ensures Apart(s.clients[c], s.clients[d])
    {
      assert c != k && d != k ==> Apart(w.clients[c], w.clients[d]);
    }
  }

  lemma GuesserKeepsGuess(cfg: Config, s: System, draw: Id, fault: Option<Error>, k: ClientId)
    requires GuessInv(cfg, s, k) && Enabled(cfg, s, Go(k, draw, fault))
    ensures var s' := Next(cfg, s, Go(k, draw, fault));
      GuessInv(cfg, s', k) && Advances(s.tables, s'.tables) && s'.clients[k].request == s.clients[k].request
  {
    var c, s' := s.clients[k], Next(cfg, s, Go(k, draw, fault));
    if c.pc.TryUpdate? && c.request.id in s.tables.pickups {
      NamedByNow(cfg, s, k);
      NextKeepsInv(cfg, s, Go(k, draw, fault));
      WithoutKeepsInv(cfg, s', k);
      assert ClientOk(cfg, s', s'.clients[k]);
    } else {
      assert Step(cfg, s, c, draw, fault).tables == s.tables && Step(cfg, s, c, draw, fault).objects == s.objects;
      AdvancesReflexive(s.tables);
      assert Without(s', k).clients == Without(s, k).clients;
      InvGrows(cfg, Without(s, k), Without(s', k));
    }
  }

  // From action n of such a run on, rows only move forward.
  lemma {:induction false} GuessRunAdvances(cfg: Config, g: System, run: seq<Action>, k: ClientId, n: nat)
    requires GuessInv(cfg, g, k) && IsRun(cfg, g, run) && n <= |run|
    ensures var s' := After(cfg, g, run);
      && GuessInv(cfg, s', k) && s'.clients[k].request == g.clients[k].request
      && IsRun(cfg, g, run[..n]) && Advances(After(cfg, g, run[..n]).tables, s'.tables)
    decreases |run|
  {
    if run == [] {
      AdvancesReflexive(g.tables);
    } else {
      var front, a := run[..|run| - 1], run[|run| - 1];
      var f, s' := After(cfg, g, front), After(cfg, g, run);
      GuessRunAdvances(cfg, g, front, k, if n < |run| then n else |front|);
      if a.Go? && a.client == k {
        GuesserKeepsGuess(cfg, f, a.draw, a.fault, k);
      } else {
        OthersKeepGuess(cfg, f, a, k);
      }
      if n < |run| {
        assert front[..n] == run[..n];
        AdvancesTransitive(After(cfg, g, run[..n]).tables, f.tables, s'.tables);
      } else {
        assert run[..n] == run;
        AdvancesReflexive(s'.tables);
      }
    }
  }

  // ---------------------------------------------------------------- the fallback

  // Action n of the run was call k's update, and it found no pickup `id` to schedule.
  ghost predicate MissedAt(cfg: Config, g: System, run: seq<Action>, k: ClientId, id: Id, n: nat) {
    && n < |run| && IsRun(cfg, g, run[..n])
    && run[n].Go? && run[n].client == k && run[n].fault.None?
    && k in After(cfg, g, run[..n]).clients
    && After(cfg, g, run[..n]).clients[k].pc.TryUpdate?
    && NotToSchedule(After(cfg, g, run[..n]).tables, id)
  }

  ghost predicate MayBeScheduled(p: Pickup) {
    p.status == PickupPending && (p.kind == Electronic ==> p.safetyCheck)
  }

  ghost predicate NotToSchedule(t: Tables, id: Id) {
    id in t.pickups ==> !MayBeScheduled(t.pickups[id])
  }

  ghost predicate Missed(s: System, k: ClientId, id: Id) {
    k in s.clients && s.clients[k].request.Schedule? && s.clients[k].request.id == id && s.clients[k].pc.Reread?
  }

  lemma {:induction false} WasMissed(cfg: Config, g: System, run: seq<Action>, k: ClientId, id: Id)
    requires IsRun(cfg, g, run) && Missed(After(cfg, g, run), k, id) && !Missed(g, k, id)
    ensures exists n: nat :: MissedAt(cfg, g, run, k, id, n)
  {
    assert run != [];
    var front, a := run[..|run| - 1], run[|run| - 1];
    if Missed(After(cfg, g, front), k, id) {
      WasMissed(cfg, g, front, k, id);
      var n: nat :| MissedAt(cfg, g, front, k, id, n);
      assert front[..n] == run[..n];
      assert MissedAt(cfg, g, run, k, id, n);
    } else {
      Misses(cfg, After(cfg, g, front), a, k, id);
      assert run[..|front|] == front;
      assert MissedAt(cfg, g, run, k, id, |front|);
    }
  }

  lemma Misses(cfg: Config, s: System, a: Action, k: ClientId, id: Id)
    requires Enabled(cfg, s, a) && Missed(Next(cfg, s, a), k, id) && !Missed(s, k, id)
    ensures a.Go? && a.client == k && a.fault.None? && k in s.clients
    ensures s.clients[k].pc.TryUpdate? && NotToSchedule(s.tables, id)
  {
  }

  // The call answers "not pending" although the pickup is pending.
  ghost predicate SaysNotPending(cfg: Config, s: System, k: ClientId, id: Id, draw: Id)
    requires Enabled(cfg, s, Go(k, draw, None))
  {
    && Next(cfg, s, Go(k, draw, None)).clients[k].pc == Done(Failed(PickupNotPending), s.steps)
    && id in s.tables.pickups && s.tables.pickups[id].status == PickupPending
  }

  // A scheduling call with a guessed id answers "not pending" of a pending pickup exactly
  // if the pickup was not there at its update, is there at its second read, and could be
  // scheduled then.
  lemma FallbackExactly(cfg: Config, s: System, k: ClientId, id: Id, date: Time, run: seq<Action>, draw: Id)
    requires Reachable(cfg, s) && k !in s.clients && IsRun(cfg, Guess(s, k, Schedule(id, date)), run)
    requires var s' := After(cfg, Guess(s, k, Schedule(id, date)), run);
      Enabled(cfg, s', Go(k, draw, None)) && s'.clients[k].pc.Reread?
    ensures var g := Guess(s, k, Schedule(id, date));
      var s' := After(cfg, g, run);
      exists n: nat ::
        && MissedAt(cfg, g, run, k, id, n)
        && (SaysNotPending(cfg, s', k, id, draw) <==>
              && id !in After(cfg, g, run[..n]).tables.pickups
              && id in s'.tables.pickups && MayBeScheduled(s'.tables.pickups[id]))
  {
    var g := Guess(s, k, Schedule(id, date));
    ReachableInv(cfg, s);
    GuessStarts(cfg, s, k, id, date);
    GuessRunAdvances(cfg, g, run, k, 0);
    WasMissed(cfg, g, run, k, id);
    var n: nat :| MissedAt(cfg, g, run, k, id, n);
    GuessRunAdvances(cfg, g, run, k, n);
    AnswersFalsely(cfg, After(cfg, g, run), k, id, draw, After(cfg, g, run[..n]).tables);
  }

  lemma AnswersFalsely(cfg: Config, s: System, k: ClientId, id: Id, draw: Id, t: Tables)
    requires Enabled(cfg, s, Go(k, draw, None)) && Missed(s, k, id)
    requires Advances(t, s.tables) && NotToSchedule(t, id)
    ensures SaysNotPending(cfg, s, k, id, draw) <==>
      id !in t.pickups && id in s.tables.pickups && MayBeScheduled(s.tables.pickups[id])
  {
  }

  // ---------------------------------------------------------------- it happens

  ghost function Guesser(pc: Pc): Client {
    Client(Schedule(3, 0), 3, 0, false, 0, None, pc)
  }

  ghost function Guessing(create: Pc, schedule: Pc, used: set<Id>, steps: nat): System {
    System(Seed(), {}, 0, used, map[0 := Creator(create), 1 := Guesser(schedule)], steps)
  }

  lemma GuesserStarts(cfg: Config, used: set<Id>, draw: Id)
    requires draw !in used
    ensures var g := Guessing(InsertRow, Called, used, 4);
      && Enabled(cfg, g, Go(1, draw, None))
      && Next(cfg, g, Go(1, draw, None)) == Guessing(InsertRow, TryUpdate, used + {draw}, 5)
  {
  }

  lemma GuesserMisses(cfg: Config, used: set<Id>, draw: Id)
    requires draw !in used
    ensures var g := Guessing(InsertRow, TryUpdate, used, 5);
      && Enabled(cfg, g, Go(1, draw, None))
      && Next(cfg, g, Go(1, draw, None)) == Guessing(InsertRow, Reread, used + {draw}, 6)
  {
  }

  lemma CreatorInserts(cfg: Config, used: set<Id>, draw: Id)
    requires draw !in used
    ensures var g := Guessing(InsertRow, Reread, used, 6);
      && Enabled(cfg, g, Go(0, draw, None))
      && Next(cfg, g, Go(0, draw, None)) == Guessing(CommitRow, Reread, used + {draw}, 7)
  {
  }

  ghost function Uncommitted(): System {
    Guessing(CommitRow, Reread, {1, 2, 3, 4} + {5} + {6} + {7}, 7)
  }

  // The update finds no pickup 3; then the creating call inserts it.
  lemma GuessMisses(cfg: Config) returns (run: seq<Action>)
    ensures Follows(cfg, Guess(Checked(), 1, Schedule(3, 0)), run, Uncommitted())
  {
    var g, used := Guess(Checked(), 1, Schedule(3, 0)), {1, 2, 3, 4};
    run := [];
    assert g == Guessing(InsertRow, Called, used, 4) by {
      assert g.used == used;
    }
    assert Follows(cfg, g, run, g);
    GuesserStarts(cfg, used, 5);
    run := Follow(cfg, g, run, g, Go(1, 5, None), Guessing(InsertRow, TryUpdate, used + {5}, 5));
    GuesserMisses(cfg, used + {5}, 6);
    run := Follow(cfg, g, run, Guessing(InsertRow, TryUpdate, used + {5}, 5), Go(1, 6, None),
      Guessing(InsertRow, Reread, used + {5} + {6}, 6));
    CreatorInserts(cfg, used + {5} + {6}, 7);
    run := Follow(cfg, g, run, Guessing(InsertRow, Reread, used + {5} + {6}, 6), Go(0, 7, None), Uncommitted());
  }

  ghost function Committed(): System {
    var row := NewRow(Creator(CommitRow));
    System(PutPickup(Seed(), row), {}, 0, Uncommitted().used + {8},
      map[0 := Creator(Done(GotPickup(row), 7)), 1 := Guesser(Reread)], 8)
  }

  lemma CreatorCommits(cfg: Config)
    ensures Enabled(cfg, Uncommitted(), Go(0, 8, None)) && Next(cfg, Uncommitted(), Go(0, 8, None)) == Committed()
  {
  }

  // Scheduling reports "not pending" of a pickup that is pending and could be scheduled.
  ghost predicate ReachesFallback(cfg: Config, s: System, k: ClientId, id: Id, date: Time, run: seq<Action>) {
    && Reachable(cfg, s) && k !in s.clients && IsRun(cfg, Guess(s, k, Schedule(id, date)), run)
    && var s' := After(cfg, Guess(s, k, Schedule(id, date)), run);
      && k in s'.clients && s'.clients[k].pc.Done? && s'.clients[k].pc.result == Failed(PickupNotPending)
      && id in s'.tables.pickups && MayBeScheduled(s'.tables.pickups[id])
  }

  lemma GuessReachesFallback(cfg: Config)
    ensures exists s, k, id, date, run :: ReachesFallback(cfg, s, k, id, date, run)
  {
    var start := ReachChecked(cfg);
    assert Leads(cfg, Start(), start, Checked());
    var run := GuessMisses(cfg);
    var g := Guess(Checked(), 1, Schedule(3, 0));
    CreatorCommits(cfg);
    run := Follow(cfg, g, run, Uncommitted(), Go(0, 8, None), Committed());
    GuesserRereads(cfg);
    run := Follow(cfg, g, run, Committed(), Go(1, 9, None), Next(cfg, Committed(), Go(1, 9, None)));
    assert ReachesFallback(cfg, Checked(), 1, 3, 0, run);
  }

  lemma GuesserRereads(cfg: Config)
    ensures Enabled(cfg, Committed(), Go(1, 9, None))
    ensures var s' := Next(cfg, Committed(), Go(1, 9, None));
      && 1 in s'.clients && s'.clients[1].pc == Done(Failed(PickupNotPending), 8)
      && 3 in s'.tables.pickups && MayBeScheduled(s'.tables.pickups[3])
  {
  }
}
