// Runs that show what interleaving does allow.
module Witness {
  import opened Domain
  import opened Tables
  import opened Atomic
  import opened System

  // A household with one pending pickup, like the seed.
  ghost function Seed(): Tables {
    Tables(map[1 := Household(1, "", "", 0, 0)], map[2 := NewPickup(2, 1, Plastic, false, 0)], map[])
  }

  ghost function Start(): System {
    System(Seed(), {}, 0, {1, 2}, map[], 0)
  }

  // ---------------------------------------------------------------- rule 1

  ghost function Creator(pc: Pc): Client {
    Client(CreatePickup(1, Plastic, false), 0, 0, true, 3, None, pc)
  }

  ghost function Biller(pc: Pc): Client {
    var drew := pc.InsertManualBill? || pc.Done?;
    Client(CreatePayment(1, 2), 3, 0, drew, if drew then 6 else 0, None, pc)
  }

  // The creating call has checked for pending payments, found none, and pauses.
  ghost function Checked(): System {
    System(Seed(), {}, 0, {1, 2, 3, 4}, map[0 := Creator(InsertRow)], 3)
  }

  lemma ReachChecked(cfg: Config) returns (run: seq<Action>)
    ensures Follows(cfg, Start(), run, Checked())
  {
    var create := CreatePickup(1, Plastic, false);
    var s0 := Start();
    var s1 := System(Seed(), {}, 0, {1, 2}, map[0 := Client(create, 0, 0, false, 0, None, Called)], 1);
    var s2 := System(Seed(), {}, 0, {1, 2, 3}, map[0 := Creator(CheckPending)], 2);
    run := [];
    assert Follows(cfg, s0, run, s0);
    run := Follow(cfg, s0, run, s0, Call(0, create), s1);
    assert s1.used + {3} == s2.used;
    run := Follow(cfg, s0, run, s1, Go(0, 3, None), s2);
    assert s2.used + {4} == Checked().used;
    run := Follow(cfg, s0, run, s2, Go(0, 4, None), Checked());
  }

  ghost function Bill(cfg: Config): Payment {
    NewPayment(cfg.pricing, 6, 1, 2, Plastic, 0)
  }

  // A manual payment for the same household goes through meanwhile.
  ghost function Billed(cfg: Config): System {
    System(PutPayment(Seed(), Bill(cfg)), {}, 0, {1, 2, 3, 4, 5} + {6} + {7},
      map[0 := Creator(InsertRow), 1 := Biller(Done(GotPayment(Bill(cfg)), 6))], 7)
  }

  ghost function Priced(): System {
    System(Seed(), {}, 0, {1, 2, 3, 4, 5}, map[0 := Creator(InsertRow), 1 := Biller(PriceBill(Plastic))], 5)
  }

  lemma ReachPriced(cfg: Config) returns (run: seq<Action>)
    ensures Follows(cfg, Start(), run, Priced())
  {
    run := ReachChecked(cfg);
    var s4 := System(Seed(), {}, 0, {1, 2, 3, 4}, map[0 := Creator(InsertRow), 1 := Biller(Called)], 4);
    run := Follow(cfg, Start(), run, Checked(), Call(1, CreatePayment(1, 2)), s4);
    run := Follow(cfg, Start(), run, s4, Go(1, 5, None), Priced());
  }

  ghost function Billing(): System {
    System(Seed(), {}, 0, {1, 2, 3, 4, 5} + {6},
      map[0 := Creator(InsertRow), 1 := Biller(InsertManualBill(Plastic))], 6)
  }

  lemma BillerPrices(cfg: Config)
    ensures Enabled(cfg, Priced(), Go(1, 6, None)) && Next(cfg, Priced(), Go(1, 6, None)) == Billing()
  {
  }

  lemma BillerInserts(cfg: Config)
    requires AmountFits(cfg.pricing.standard)
    ensures Enabled(cfg, Billing(), Go(1, 7, None)) && Next(cfg, Billing(), Go(1, 7, None)) == Billed(cfg)
  {
  }

  lemma ReachBilled(cfg: Config) returns (run: seq<Action>)
    requires AmountFits(cfg.pricing.standard)
    ensures Follows(cfg, Start(), run, Billed(cfg))
  {
    run := ReachPriced(cfg);
    BillerPrices(cfg);
    run := Follow(cfg, Start(), run, Priced(), Go(1, 6, None), Billing());
    BillerInserts(cfg);
    run := Follow(cfg, Start(), run, Billing(), Go(1, 7, None), Billed(cfg));
  }

  ghost function BilledInserted(cfg: Config): System {
    System(Billed(cfg).tables, {}, 0, Billed(cfg).used + {8},
      map[0 := Creator(CommitRow), 1 := Biller(Done(GotPayment(Bill(cfg)), 6))], 8)
  }

  ghost function BilledCreated(cfg: Config): System {
    var row := NewRow(Creator(CommitRow));
    System(PutPickup(Billed(cfg).tables, row), {}, 0, Billed(cfg).used + {8} + {9},
      map[0 := Creator(Done(GotPickup(row), 8)), 1 := Biller(Done(GotPayment(Bill(cfg)), 6))], 9)
  }

  lemma InsertsUnlooked(cfg: Config)
    ensures Enabled(cfg, Billed(cfg), Go(0, 8, None)) && Next(cfg, Billed(cfg), Go(0, 8, None)) == BilledInserted(cfg)
  {
  }

  lemma CommitsUnlooked(cfg: Config)
    ensures Enabled(cfg, BilledInserted(cfg), Go(0, 9, None))
    ensures Next(cfg, BilledInserted(cfg), Go(0, 9, None)) == BilledCreated(cfg)
  {
  }

  // Rule 1 fails between concurrent calls: a pickup is created for a household that
  // has a pending payment, because the payment came after the check.
  lemma Rule1CanBreak(cfg: Config)
    requires AmountFits(cfg.pricing.standard)
    ensures exists s, k ::
      && Reachable(cfg, s)
      && k in s.clients && s.clients[k].request.CreatePickup?
      && s.clients[k].pc.Done? && s.clients[k].pc.result.GotPickup?
      && HasPending(s.tables, s.clients[k].request.householdId)
  {
    var run := ReachBilled(cfg);
    InsertsUnlooked(cfg);
    run := Follow(cfg, Start(), run, Billed(cfg), Go(0, 8, None), BilledInserted(cfg));
    CommitsUnlooked(cfg);
    run := Follow(cfg, Start(), run, BilledInserted(cfg), Go(0, 9, None), BilledCreated(cfg));
    assert Leads(cfg, Start(), run, BilledCreated(cfg));
    assert BilledCreated(cfg).tables.payments[6].householdId == 1;
    assert 0 in BilledCreated(cfg).clients;
  }

  // ---------------------------------------------------------------- Complete's second read

  ghost function Completer(pc: Pc): Client {
    Client(Complete(2), 0, 0, false, 0, None, pc)
  }

  ghost function Scheduler(pc: Pc): Client {
    Client(Schedule(2, 0), 3, 0, false, 0, None, pc)
  }

  // The completion has lost its guard to a pending pickup and pauses.
  ghost function Lost(): System {
    System(Seed(), {}, 0, {1, 2, 3, 4}, map[0 := Completer(Reread)], 3)
  }

  lemma ReachLost(cfg: Config) returns (run: seq<Action>)
    ensures Follows(cfg, Start(), run, Lost())
  {
    var s1 := System(Seed(), {}, 0, {1, 2}, map[0 := Completer(Called)], 1);
    var s2 := System(Seed(), {}, 0, {1, 2, 3}, map[0 := Completer(TryUpdate)], 2);
    run := [];
    assert Follows(cfg, Start(), run, Start());
    assert Start().used + {2} == s1.used;
    run := Follow(cfg, Start(), run, Start(), Call(0, Complete(2)), s1);
    run := Follow(cfg, Start(), run, s1, Go(0, 3, None), s2);
    run := Follow(cfg, Start(), run, s2, Go(0, 4, None), Lost());
  }

  ghost function Scheduling(): System {
    System(Seed(), {}, 0, {1, 2, 3, 4, 5}, map[0 := Completer(Reread), 1 := Scheduler(TryUpdate)], 5)
  }

  lemma ReachScheduling(cfg: Config) returns (run: seq<Action>)
    ensures Follows(cfg, Start(), run, Scheduling())
  {
    run := ReachLost(cfg);
    var s4 := System(Seed(), {}, 0, {1, 2, 3, 4}, map[0 := Completer(Reread), 1 := Scheduler(Called)], 4);
    assert Lost().used + {2} == s4.used;
    run := Follow(cfg, Start(), run, Lost(), Call(1, Schedule(2, 0)), s4);
    run := Follow(cfg, Start(), run, s4, Go(1, 5, None), Scheduling());
  }

  // The pickup is scheduled while the completion still pauses.
  ghost function Scheduled(): System {
    var row := ScheduleRow(Seed().pickups[2], 0, 0).value;
    System(PutPickup(Seed(), row), {}, 0, {1, 2, 3, 4, 5, 6},
      map[0 := Completer(Reread), 1 := Scheduler(Done(GotPickup(row), 5))], 6)
  }

  lemma ReachScheduled(cfg: Config) returns (run: seq<Action>)
    ensures Follows(cfg, Start(), run, Scheduled())
  {
    run := ReachScheduling(cfg);
    run := Follow(cfg, Start(), run, Scheduling(), Go(1, 6, None), Scheduled());
  }

  // A completion may report "not scheduled" of a pickup that is scheduled by then.
  lemma CompleteCanReportStale(cfg: Config)
    ensures exists s, k ::
      && Reachable(cfg, s)
      && k in s.clients && s.clients[k].request.Complete? && s.clients[k].pc.Done?
      && s.clients[k].pc.returned + 1 == s.steps
      && s.clients[k].pc.result == Failed(PickupNotScheduled)
      && s.clients[k].request.id in s.tables.pickups
      && s.tables.pickups[s.clients[k].request.id].status == PickupScheduled
  {
    var run := ReachScheduled(cfg);
    var s7 := System(Scheduled().tables, {}, 0, {1, 2, 3, 4, 5, 6, 7},
      Scheduled().clients[0 := Completer(Done(Failed(PickupNotScheduled), 6))], 7);
    run := Follow(cfg, Start(), run, Scheduled(), Go(0, 7, None), s7);
    assert Leads(cfg, Start(), run, s7);
    assert 0 in s7.clients;
  }
}
