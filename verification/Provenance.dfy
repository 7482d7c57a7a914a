// Where every pickup row comes from: the call that created it, the call that scheduled
// it and the call that moved it last, each with what it was asked and what it answered.
module Provenance {
  import opened Domain
  import opened Tables
  import opened Atomic
  import opened System
  import opened Invariants

  // ---------------------------------------------------------------- whose doing

  // The call created pickup i with what row p still says of its origin.
  ghost predicate Creates(c: Client, i: Id, p: Pickup) {
    && c.request == CreatePickup(p.householdId, p.kind, p.safetyCheck)
    && c.id == i && c.now == p.createdAt
    && c.pc.Done?
    && c.pc.result ==
         GotPickup(Pickup(i, p.householdId, p.kind, PickupPending, None, p.safetyCheck, p.createdAt, p.createdAt))
  }

  // The call scheduled pickup i for this date.
  ghost predicate Schedules(c: Client, i: Id, date: Option<Time>) {
    && c.request.Schedule? && c.request.id == i && date == Some(c.request.pickupDate)
    && c.pc.Done? && c.pc.result.GotPickup?
  }

  // The call is the last that changed pickup i, and left it as p.
  ghost predicate MovedLast(cfg: Config, c: Client, i: Id, p: Pickup) {
    && c.pc.Done? && p.updatedAt == c.now
    && match p.status
       case PickupPending => false
       case PickupScheduled => c.request.Schedule? && c.request.id == i && c.pc.result == GotPickup(p)
       case PickupCompleted => c.request == Complete(i) && c.pc.result == GotPickup(p)
       case PickupCanceled =>
         || (c.request == Cancel(i) && c.pc.result == GotPickup(p))
         || (c.request.CancelStaleOrganic? && c.pc.result.Swept?
             && p.kind == Organic && p.createdAt < c.now - cfg.organicTTL)
  }

  ghost predicate SameOrigin(p: Pickup, q: Pickup) {
    && q.id == p.id && q.householdId == p.householdId && q.kind == p.kind
    && q.safetyCheck == p.safetyCheck && q.createdAt == p.createdAt
  }

  ghost predicate HasOrigin(t0: Tables, s: System, i: Id)
    requires i in s.tables.pickups
  {
    || (i in t0.pickups && SameOrigin(t0.pickups[i], s.tables.pickups[i]))
    || exists k :: k in s.clients && Creates(s.clients[k], i, s.tables.pickups[i])
  }

  ghost predicate HasSchedule(s: System, i: Id)
    requires i in s.tables.pickups
  {
    exists k :: k in s.clients && Schedules(s.clients[k], i, s.tables.pickups[i].pickupDate)
  }

  ghost predicate HasLastMove(cfg: Config, s: System, i: Id)
    requires i in s.tables.pickups
  {
    exists k :: k in s.clients && MovedLast(cfg, s.clients[k], i, s.tables.pickups[i])
  }

  // Pickup i in s, starting from tables t0, is fully accounted for.
  ghost predicate Explained(cfg: Config, t0: Tables, s: System, i: Id)
    requires i in s.tables.pickups
  {
    var status := s.tables.pickups[i].status;
    && HasOrigin(t0, s, i)
    && (status != PickupPending ==> HasLastMove(cfg, s, i))
    && (status == PickupScheduled || status == PickupCompleted ==> HasSchedule(s, i))
  }

  ghost predicate AllExplained(cfg: Config, t0: Tables, s: System) {
    forall i :: i in s.tables.pickups ==> Explained(cfg, t0, s, i)
  }

  // ---------------------------------------------------------------- one step

  // From t to u, client c answers for what becomes of pickup i.
  ghost predicate MovesRight(cfg: Config, t: Tables, u: Tables, c: Client, i: Id)
    requires i in u.pickups
  {
    var q := u.pickups[i];
    if i in t.pickups then
      var p := t.pickups[i];
      || q == p
      || (&& SameOrigin(p, q) && MovedLast(cfg, c, i, q)
          && (q.status == PickupScheduled ==> Schedules(c, i, q.pickupDate))
          && (q.status == PickupCompleted ==> p.status == PickupScheduled && q.pickupDate == p.pickupDate))
    else q.status == PickupPending && Creates(c, i, q)
  }

  ghost predicate AllMoveRight(cfg: Config, t: Tables, m: Move) {
    forall i :: i in m.tables.pickups ==> MovesRight(cfg, t, m.tables, m.client, i)
  }

  lemma CreateMovesRight(cfg: Config, s: System, c: Client, draw: Id)
    requires Acting(cfg, s, c, draw) && c.request.CreatePickup?
    ensures AllMoveRight(cfg, s.tables, StepCreatePickup(s, c, draw))
  {
  }

  lemma UpdateMovesRight(cfg: Config, s: System, c: Client, draw: Id)
    requires Acting(cfg, s, c, draw)
    ensures c.request.Schedule? ==> AllMoveRight(cfg, s.tables, StepSchedule(s, c))
    ensures c.request.Cancel? ==> AllMoveRight(cfg, s.tables, StepCancel(s, c))
  {
  }

  lemma CompleteMovesRight(cfg: Config, s: System, c: Client, draw: Id)
    requires Acting(cfg, s, c, draw) && c.request.Complete?
    ensures AllMoveRight(cfg, s.tables, StepComplete(cfg, s, c, draw))
  {
  }

  lemma SweepMovesRight(cfg: Config, s: System, c: Client, draw: Id)
    requires Acting(cfg, s, c, draw) && c.request.CancelStaleOrganic?
    ensures AllMoveRight(cfg, s.tables, StepSweep(cfg, s, c))
  {
  }

  lemma StepMovesRight(cfg: Config, s: System, c: Client, draw: Id, fault: Option<Error>)
    requires Acting(cfg, s, c, draw)
    ensures AllMoveRight(cfg, s.tables, Step(cfg, s, c, draw, fault))
  {
    if !(fault.Some? && !PurelyLocal(c)) {
      match c.request {
        case CreatePickup(_, _, _) => CreateMovesRight(cfg, s, c, draw);
        case Complete(_) => CompleteMovesRight(cfg, s, c, draw);
        case CancelStaleOrganic => SweepMovesRight(cfg, s, c, draw);
        case Schedule(_, _) => UpdateMovesRight(cfg, s, c, draw);
        case Cancel(_) => UpdateMovesRight(cfg, s, c, draw);
        case _ => assert Step(cfg, s, c, draw, fault).tables.pickups == s.tables.pickups;
      }
    }
  }

  // What explained a row that stays, or stays what it was, explains it still.
  lemma StillExplained(cfg: Config, t0: Tables, s: System, k: ClientId, m: Move, s': System, i: Id)
    requires s'.clients == s.clients[k := m.client] && s'.tables == m.tables
    requires k in s.clients ==> !s.clients[k].pc.Done?
    requires i in s.tables.pickups && i in s'.tables.pickups && Explained(cfg, t0, s, i)
    ensures SameOrigin(s.tables.pickups[i], s'.tables.pickups[i]) ==> HasOrigin(t0, s', i)
    ensures s'.tables.pickups[i] == s.tables.pickups[i] ==> Explained(cfg, t0, s', i)
    ensures
      (s.tables.pickups[i].status == PickupScheduled
       && s'.tables.pickups[i].pickupDate == s.tables.pickups[i].pickupDate) ==> HasSchedule(s', i)
  {
    var p, q := s.tables.pickups[i], s'.tables.pickups[i];
    if l :| l in s.clients && Creates(s.clients[l], i, p) && SameOrigin(p, q) {
      assert l in s'.clients && Creates(s'.clients[l], i, q);
    }
    if l :| l in s.clients && MovedLast(cfg, s.clients[l], i, p) && q == p {
      assert l in s'.clients && MovedLast(cfg, s'.clients[l], i, q);
    }
    if l :| l in s.clients && Schedules(s.clients[l], i, p.pickupDate) && q.pickupDate == p.pickupDate {
      assert l in s'.clients && Schedules(s'.clients[l], i, q.pickupDate);
    }
  }

  lemma MoveExplains(cfg: Config, t0: Tables, s: System, k: ClientId, m: Move, s': System)
    requires AllExplained(cfg, t0, s) && AllMoveRight(cfg, s.tables, m)
    requires s'.clients == s.clients[k := m.client] && s'.tables == m.tables
    requires k in s.clients ==> !s.clients[k].pc.Done?
    ensures AllExplained(cfg, t0, s')
  {
    forall i | i in s'.tables.pickups
      ensures Explained(cfg, t0, s', i)
    {
      var q := s'.tables.pickups[i];
      assert MovesRight(cfg, s.tables, m.tables, m.client, i);
      if i in s.tables.pickups {
        StillExplained(cfg, t0, s, k, m, s', i);
        if q != s.tables.pickups[i] {
          assert k in s'.clients && MovedLast(cfg, s'.clients[k], i, q);
          assert q.status == PickupScheduled ==> Schedules(s'.clients[k], i, q.pickupDate);
        }
      } else {
        assert k in s'.clients && Creates(s'.clients[k], i, q);
      }
    }
  }

  lemma NextExplains(cfg: Config, t0: Tables, s: System, a: Action)
    requires Inv(cfg, s) && Enabled(cfg, s, a) && AllExplained(cfg, t0, s)
    ensures AllExplained(cfg, t0, Next(cfg, s, a))
  {
    var s' := Next(cfg, s, a);
    match a {
      case Tick(_) =>
        forall i | i in s'.tables.pickups
          ensures Explained(cfg, t0, s', i)
        {
          assert Explained(cfg, t0, s, i);
        }
      case Call(k, _) =>
        MoveExplains(cfg, t0, s, k, Move(s'.clients[k], s.tables, s.objects), s');
      case Go(k, draw, fault) =>
        assert Ready(cfg, s, s.clients[k], draw);
        StepMovesRight(cfg, s, s.clients[k], draw, fault);
        MoveExplains(cfg, t0, s, k, Step(cfg, s, s.clients[k], draw, fault), s');
    }
  }

  // ---------------------------------------------------------------- whole runs

  // In every run from every start, every pickup row is some calls' doing: it is there
  // from the start or was created as its household, type and safety check say; if it is
  // past pending, a call that answered with this very row, or a sweep it was overdue
  // for, moved it last; and if it has been scheduled its date is one a call asked for.
  lemma {:induction false} EveryRowExplained(cfg: Config, s: System, run: seq<Action>)
    requires Initial(s) && IsRun(cfg, s, run)
    ensures AllExplained(cfg, s.tables, After(cfg, s, run))
  {
    if run == [] {
      assert forall i :: i in s.tables.pickups ==> HasOrigin(s.tables, s, i);
    } else {
      var front := run[..|run| - 1];
      EveryRowExplained(cfg, s, front);
      InitialInv(cfg, s);
      RunKeepsInv(cfg, s, front);
      NextExplains(cfg, s.tables, After(cfg, s, front), run[|run| - 1]);
    }
  }

  // Rule 3 from end to end: an electronic pickup that has got anywhere was requested
  // with its safety check passed, unless it was there from the start, checked.
  lemma ElectronicWasChecked(cfg: Config, s: System, run: seq<Action>, i: Id)
    requires Initial(s) && IsRun(cfg, s, run) && i in After(cfg, s, run).tables.pickups
    requires After(cfg, s, run).tables.pickups[i].kind == Electronic
    requires After(cfg, s, run).tables.pickups[i].status in {PickupScheduled, PickupCompleted}
    ensures var s' := After(cfg, s, run);
      || (i in s.tables.pickups && s.tables.pickups[i].kind == Electronic && s.tables.pickups[i].safetyCheck)
      || exists k ::
           && k in s'.clients && s'.clients[k].id == i && s'.clients[k].pc.Done? && s'.clients[k].pc.result.GotPickup?
           && s'.clients[k].request == CreatePickup(s'.tables.pickups[i].householdId, Electronic, true)
  {
    EveryRowExplained(cfg, s, run);
    InitialInv(cfg, s);
    RunKeepsInv(cfg, s, run);
    var s' := After(cfg, s, run);
    assert LifecycleOk(s'.tables.pickups[i]);
    assert HasOrigin(s.tables, s', i);
  }

  // Nothing but organic is canceled without being asked for.
  lemma CanceledWasAskedFor(cfg: Config, s: System, run: seq<Action>, i: Id)
    requires Initial(s) && IsRun(cfg, s, run) && i in After(cfg, s, run).tables.pickups
    requires After(cfg, s, run).tables.pickups[i].status == PickupCanceled
    requires After(cfg, s, run).tables.pickups[i].kind != Organic
    ensures var s' := After(cfg, s, run);
      exists k ::
        && k in s'.clients && s'.clients[k].request == Cancel(i)
        && s'.clients[k].pc.Done? && s'.clients[k].pc.result == GotPickup(s'.tables.pickups[i])
  {
    EveryRowExplained(cfg, s, run);
    var s' := After(cfg, s, run);
    assert HasLastMove(cfg, s', i);
    var k :| k in s'.clients && MovedLast(cfg, s'.clients[k], i, s'.tables.pickups[i]);
    assert s'.clients[k].request == Cancel(i);
  }

  // ---------------------------------------------------------------- answers of creating calls

  ghost predicate CreatorTold(c: Client) {
    c.request.CreatePickup? && c.pc.Done? && !c.pc.result.Failed? ==>
      c.pc.result == GotPickup(
        Pickup(c.id, c.request.householdId, c.request.kind, PickupPending, None, c.request.safetyCheck, c.now, c.now))
  }

  // A creating call that did not fail answers with the row it was asked for.
  lemma {:induction false} CreatorsTold(cfg: Config, s: System, run: seq<Action>)
    requires Initial(s) && IsRun(cfg, s, run)
    ensures forall k :: k in After(cfg, s, run).clients ==> CreatorTold(After(cfg, s, run).clients[k])
  {
    if run != [] {
      var front, a := run[..|run| - 1], run[|run| - 1];
      CreatorsTold(cfg, s, front);
      if a.Go? {
        StepTellsCreator(cfg, After(cfg, s, front), After(cfg, s, front).clients[a.client], a.draw, a.fault);
      }
    }
  }

  lemma StepTellsCreator(cfg: Config, s: System, c: Client, draw: Id, fault: Option<Error>)
    requires !c.pc.Done?
    ensures CreatorTold(Step(cfg, s, c, draw, fault).client)
  {
  }
}
