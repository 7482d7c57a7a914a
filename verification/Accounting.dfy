// Conservation over whole runs: every completed or canceled pickup is some call's
// doing, and there are at most two transitions for every pickup.
module Accounting {
  import opened Domain
  import opened Tables
  import opened System
  import opened Invariants
  import opened Sums

  // ---------------------------------------------------------------- what is counted

  ghost function StatusFlags(t: Tables, status: PickupStatus): map<nat, int> {
    map i | i in t.pickups :: if t.pickups[i].status == status then 1 else 0
  }

  ghost function WithStatus(t: Tables, status: PickupStatus): set<Id> {
    set i | i in t.pickups && t.pickups[i].status == status
  }

  ghost function Ranks(t: Tables): map<nat, int> {
    map i | i in t.pickups :: Rank(t.pickups[i].status)
  }

  function CreatedBy(c: Client): int {
    if c.request.CreatePickup? && c.pc.Done? && c.pc.result.GotPickup? then 1 else 0
  }

  function ScheduledBy(c: Client): int {
    if c.request.Schedule? && c.pc.Done? && c.pc.result.GotPickup? then 1 else 0
  }

  function CompletedBy(c: Client): int {
    if c.request.Complete? && c.pc.Done? && c.pc.result.GotPickup? then 1 else 0
  }

  // A sweep reports how many rows it canceled.
  function CanceledBy(c: Client): int {
    if !c.pc.Done? then 0
    else if c.request.Cancel? && c.pc.result.GotPickup? then 1
    else if c.request.CancelStaleOrganic? && c.pc.result.Swept? then c.pc.result.count
    else 0
  }

  function TransitionsBy(c: Client): int {
    ScheduledBy(c) + CompletedBy(c) + CanceledBy(c)
  }

  ghost function Shares(cs: map<ClientId, Client>, share: Client -> int): map<nat, int> {
    map k | k in cs :: share(cs[k])
  }

  ghost function Tally(cs: map<ClientId, Client>, share: Client -> int): int {
    Sum(Shares(cs, share))
  }

  ghost predicate Conserved(created: int, s: System) {
    && |s.tables.pickups| == created + Tally(s.clients, CreatedBy)
    && Sum(StatusFlags(s.tables, PickupCompleted)) == Tally(s.clients, CompletedBy)
    && Sum(StatusFlags(s.tables, PickupCanceled)) == Tally(s.clients, CanceledBy)
    && Sum(Ranks(s.tables)) + Tally(s.clients, TransitionsBy) <= 2 * |s.tables.pickups|
  }

  // ---------------------------------------------------------------- one statement

  // Going from t to u, the answer of client c accounts for the difference.
  ghost predicate Balanced(t: Tables, u: Tables, c: Client) {
    && |u.pickups| == |t.pickups| + CreatedBy(c)
    && Sum(StatusFlags(u, PickupCompleted)) == Sum(StatusFlags(t, PickupCompleted)) + CompletedBy(c)
    && Sum(StatusFlags(u, PickupCanceled)) == Sum(StatusFlags(t, PickupCanceled)) + CanceledBy(c)
    && Sum(Ranks(u)) + TransitionsBy(c) <= Sum(Ranks(t)) + 2 * (|u.pickups| - |t.pickups|)
  }

  lemma PutPickupSums(t: Tables, p: Pickup, status: PickupStatus)
    ensures Sum(StatusFlags(PutPickup(t, p), status)) ==
      Sum(StatusFlags(t, status))
      - (if p.id in t.pickups && t.pickups[p.id].status == status then 1 else 0)
      + (if p.status == status then 1 else 0)
  {
    var flag := if p.status == status then 1 else 0;
    SumPut(StatusFlags(t, status), p.id, flag);
    assert StatusFlags(PutPickup(t, p), status) == StatusFlags(t, status)[p.id := flag];
  }

  lemma PutPickupRanks(t: Tables, p: Pickup)
    ensures Sum(Ranks(PutPickup(t, p))) ==
      Sum(Ranks(t)) - (if p.id in t.pickups then Rank(t.pickups[p.id].status) else 0) + Rank(p.status)
  {
    SumPut(Ranks(t), p.id, Rank(p.status));
    assert Ranks(PutPickup(t, p)) == Ranks(t)[p.id := Rank(p.status)];
  }

  ghost function StaleFlags(t: Tables, cutoff: Time): map<nat, int> {
    map i | i in t.pickups :: if Stale(t.pickups[i], cutoff) then 1 else 0
  }

  // The affected-row count of the sweep is exactly what it moves to canceled.
  lemma SweepSums(t: Tables, cutoff: Time, now: Time)
    ensures var u := SweepTables(t, cutoff, now);
      && Sum(StatusFlags(u, PickupCompleted)) == Sum(StatusFlags(t, PickupCompleted))
      && Sum(StatusFlags(u, PickupCanceled)) == Sum(StatusFlags(t, PickupCanceled)) + |StaleIds(t, cutoff)|
  {
    var u, stale := SweepTables(t, cutoff, now), StaleFlags(t, cutoff);
    SumCounts(stale, StaleIds(t, cutoff));
    assert StatusFlags(u, PickupCompleted) == StatusFlags(t, PickupCompleted);
    SumLinear(StatusFlags(t, PickupCanceled), stale, StatusFlags(u, PickupCanceled), 1, 1);
  }

  lemma SweepRanks(t: Tables, cutoff: Time, now: Time)
    ensures Sum(Ranks(SweepTables(t, cutoff, now))) + |StaleIds(t, cutoff)| <= Sum(Ranks(t))
  {
    var u, stale := SweepTables(t, cutoff, now), StaleFlags(t, cutoff);
    SumCounts(stale, StaleIds(t, cutoff));
    var drops := map i | i in t.pickups :: Rank(u.pickups[i].status) + stale[i];
    SumLinear(Ranks(u), stale, drops, 1, 1);
    SumAtMost(drops, Ranks(t));
  }

  lemma SweepBalances(t: Tables, cutoff: Time, now: Time, c: Client)
    requires CreatedBy(c) == ScheduledBy(c) == CompletedBy(c) == 0 && CanceledBy(c) == |StaleIds(t, cutoff)|
    ensures Balanced(t, SweepTables(t, cutoff, now), c)
  {
    SweepSums(t, cutoff, now);
    assert Sum(Ranks(SweepTables(t, cutoff, now))) + |StaleIds(t, cutoff)| <= Sum(Ranks(t)) by {
      SweepRanks(t, cutoff, now);
    }
    assert |SweepTables(t, cutoff, now).pickups| == |t.pickups| by {
      assert SweepTables(t, cutoff, now).pickups.Keys == t.pickups.Keys;
    }
    assert TransitionsBy(c) == |StaleIds(t, cutoff)|;
  }

  lemma InsertBalances(t: Tables, p: Pickup, c: Client)
    requires p.id !in t.pickups && p.status == PickupPending && CreatedBy(c) == 1
    ensures Balanced(t, PutPickup(t, p), c)
  {
    var u := PutPickup(t, p);
    assert |u.pickups| == |t.pickups| + 1;
    assert TransitionsBy(c) == CompletedBy(c) == CanceledBy(c) == 0;
    PutPickupSums(t, p, PickupCompleted);
    PutPickupSums(t, p, PickupCanceled);
    assert Sum(Ranks(u)) == Sum(Ranks(t)) + 2 by {
      PutPickupRanks(t, p);
    }
  }

  lemma UpdateBalances(t: Tables, p: Pickup, c: Client)
    requires p.id in t.pickups && Rank(p.status) < Rank(t.pickups[p.id].status)
    requires CreatedBy(c) == 0 && TransitionsBy(c) == 1
    requires CompletedBy(c) == 1 <==> p.status == PickupCompleted
    requires CanceledBy(c) == 1 <==> p.status == PickupCanceled
    ensures Balanced(t, PutPickup(t, p), c)
  {
    PutPickupSums(t, p, PickupCompleted);
    PutPickupSums(t, p, PickupCanceled);
    PutPickupRanks(t, p);
    assert PutPickup(t, p).pickups.Keys == t.pickups.Keys;
  }

  lemma SamePickupsBalance(t: Tables, u: Tables, v: Tables, c: Client)
    requires Balanced(t, u, c) && v.pickups == u.pickups
    ensures Balanced(t, v, c)
  {
    assert StatusFlags(v, PickupCompleted) == StatusFlags(u, PickupCompleted);
    assert StatusFlags(v, PickupCanceled) == StatusFlags(u, PickupCanceled);
    assert Ranks(v) == Ranks(u);
  }

  // ---------------------------------------------------------------- one step

  lemma IdleBalances(t: Tables, c: Client)
    requires CreatedBy(c) == ScheduledBy(c) == CompletedBy(c) == CanceledBy(c) == 0
    ensures Balanced(t, t, c)
  {
  }

  lemma CreateBalanced(cfg: Config, s: System, c: Client, draw: Id)
    requires Acting(cfg, s, c, draw) && c.request.CreatePickup?
    ensures var m := StepCreatePickup(s, c, draw); Balanced(s.tables, m.tables, m.client)
  {
    var m := StepCreatePickup(s, c, draw);
    if c.pc.CommitRow? {
      InsertBalances(s.tables, NewRow(c), m.client);
    } else {
      assert m.tables == s.tables && CreatedBy(m.client) == 0;
      IdleBalances(s.tables, m.client);
    }
  }

  lemma ScheduleBalanced(cfg: Config, s: System, c: Client, draw: Id)
    requires Acting(cfg, s, c, draw) && c.request.Schedule?
    ensures var m := StepSchedule(s, c); Balanced(s.tables, m.tables, m.client)
  {
    var m := StepSchedule(s, c);
    if c.pc.TryUpdate? && m.client.pc.Done? {
      UpdateBalances(s.tables, m.client.pc.result.pickup, m.client);
    } else {
      IdleBalances(s.tables, m.client);
    }
  }

  lemma CancelBalanced(cfg: Config, s: System, c: Client, draw: Id)
    requires Acting(cfg, s, c, draw) && c.request.Cancel?
    ensures var m := StepCancel(s, c); Balanced(s.tables, m.tables, m.client)
  {
    var m := StepCancel(s, c);
    if c.pc.TryUpdate? && m.client.pc.Done? {
      UpdateBalances(s.tables, m.client.pc.result.pickup, m.client);
    } else {
      IdleBalances(s.tables, m.client);
    }
  }

  lemma CompleteBalanced(cfg: Config, s: System, c: Client, draw: Id)
    requires Acting(cfg, s, c, draw) && c.request.Complete?
    ensures var m := StepComplete(cfg, s, c, draw); Balanced(s.tables, m.tables, m.client)
  {
    var m := StepComplete(cfg, s, c, draw);
    if c.pc.CommitBill? {
      UpdateBalances(s.tables, c.pc.row, m.client);
      SamePickupsBalance(s.tables, PutPickup(s.tables, c.pc.row), m.tables, m.client);
    } else {
      IdleBalances(s.tables, m.client);
    }
  }

  lemma SweepBalanced(cfg: Config, s: System, c: Client, draw: Id)
    requires Acting(cfg, s, c, draw) && c.request.CancelStaleOrganic?
    ensures var m := StepSweep(cfg, s, c); Balanced(s.tables, m.tables, m.client)
  {
    if c.pc.TryUpdate? {
      SweepBalances(s.tables, c.now - cfg.organicTTL, c.now, StepSweep(cfg, s, c).client);
    } else {
      IdleBalances(s.tables, StepSweep(cfg, s, c).client);
    }
  }

  lemma OtherBalanced(cfg: Config, s: System, c: Client, draw: Id, fault: Option<Error>)
    requires !c.pc.Done?
    requires (fault.Some? && !PurelyLocal(c)) || c.request.CreatePayment? || c.request.Confirm?
      || c.request.CreateHousehold? || c.request.DeleteHousehold?
    ensures var m := Step(cfg, s, c, draw, fault); Balanced(s.tables, m.tables, m.client)
  {
    var m := Step(cfg, s, c, draw, fault);
    assert m.tables.pickups == s.tables.pickups;
    assert CreatedBy(m.client) == 0 && TransitionsBy(m.client) == 0;
    IdleBalances(s.tables, m.client);
    SamePickupsBalance(s.tables, s.tables, m.tables, m.client);
  }

  lemma StepBalanced(cfg: Config, s: System, c: Client, draw: Id, fault: Option<Error>)
    requires Acting(cfg, s, c, draw)
    ensures var m := Step(cfg, s, c, draw, fault); Balanced(s.tables, m.tables, m.client)
  {
    if fault.Some? && !PurelyLocal(c) {
      OtherBalanced(cfg, s, c, draw, fault);
    } else {
      match c.request {
        case CreatePickup(_, _, _) => CreateBalanced(cfg, s, c, draw);
        case Schedule(_, _) => ScheduleBalanced(cfg, s, c, draw);
        case Complete(_) => CompleteBalanced(cfg, s, c, draw);
        case Cancel(_) => CancelBalanced(cfg, s, c, draw);
        case CancelStaleOrganic => SweepBalanced(cfg, s, c, draw);
        case _ => OtherBalanced(cfg, s, c, draw, fault);
      }
    }
  }

  // ---------------------------------------------------------------- whole runs

  // A client that was not done had contributed nothing yet.
  lemma TallyPut(cs: map<ClientId, Client>, k: ClientId, c: Client, share: Client -> int)
    requires k in cs ==> share(cs[k]) == 0
    ensures Tally(cs[k := c], share) == Tally(cs, share) + share(c)
  {
    SumPut(Shares(cs, share), k, share(c));
    assert Shares(cs[k := c], share) == Shares(cs, share)[k := share(c)];
  }

  lemma PutConserves(created: int, s: System, k: ClientId, c: Client, s': System)
    requires Conserved(created, s)
    requires s'.clients == s.clients[k := c] && Balanced(s.tables, s'.tables, c)
    requires k in s.clients ==> !s.clients[k].pc.Done?
    ensures Conserved(created, s')
  {
    TallyPut(s.clients, k, c, CreatedBy);
    TallyPut(s.clients, k, c, CompletedBy);
    TallyPut(s.clients, k, c, CanceledBy);
    TallyPut(s.clients, k, c, TransitionsBy);
  }

  lemma InitialConserved(s: System)
    requires Initial(s)
    ensures Conserved(|s.tables.pickups|, s)
  {
    var t := s.tables;
    assert Shares(s.clients, CreatedBy) == map[] && Shares(s.clients, CompletedBy) == map[];
    assert Shares(s.clients, CanceledBy) == map[] && Shares(s.clients, TransitionsBy) == map[];
    SumCounts(StatusFlags(t, PickupCompleted), {});
    SumCounts(StatusFlags(t, PickupCanceled), {});
    var ones := map i | i in t.pickups :: 1;
    SumCounts(ones, t.pickups.Keys);
    SumLinear(ones, ones, Ranks(t), 1, 1);
  }

  lemma {:induction false} RunConserves(cfg: Config, s: System, run: seq<Action>)
    requires Initial(s) && IsRun(cfg, s, run)
    ensures Inv(cfg, After(cfg, s, run)) && Conserved(|s.tables.pickups|, After(cfg, s, run))
  {
    if run == [] {
      InitialInv(cfg, s);
      InitialConserved(s);
    } else {
      var front, a := run[..|run| - 1], run[|run| - 1];
      RunConserves(cfg, s, front);
      NextConserves(cfg, |s.tables.pickups|, After(cfg, s, front), a);
    }
  }

  lemma NextConserves(cfg: Config, created: int, s: System, a: Action)
    requires Inv(cfg, s) && Conserved(created, s) && Enabled(cfg, s, a)
    ensures Inv(cfg, Next(cfg, s, a)) && Conserved(created, Next(cfg, s, a))
  {
    NextKeepsInv(cfg, s, a);
    var s' := Next(cfg, s, a);
    match a {
      case Tick(_) =>
      case Call(k, _) =>
        PutConserves(created, s, k, s'.clients[k], s');
      case Go(k, draw, fault) =>
        StepBalanced(cfg, s, s.clients[k], draw, fault);
        PutConserves(created, s, k, s'.clients[k], s');
    }
  }

  // After any run: as many completed pickups as successful completions, as many
  // canceled ones as cancellations plus what the sweeps counted, and at most two
  // successful transitions for every pickup there ever was.
  lemma TransitionsAddUp(cfg: Config, s: System, run: seq<Action>)
    requires Initial(s) && IsRun(cfg, s, run)
    ensures var s' := After(cfg, s, run);
      && |WithStatus(s'.tables, PickupCompleted)| == Tally(s'.clients, CompletedBy)
      && |WithStatus(s'.tables, PickupCanceled)| == Tally(s'.clients, CanceledBy)
      && Tally(s'.clients, TransitionsBy) <= 2 * (|s.tables.pickups| + Tally(s'.clients, CreatedBy))
  {
    RunConserves(cfg, s, run);
    var s' := After(cfg, s, run);
    SumCounts(StatusFlags(s'.tables, PickupCompleted), WithStatus(s'.tables, PickupCompleted));
    SumCounts(StatusFlags(s'.tables, PickupCanceled), WithStatus(s'.tables, PickupCanceled));
    var zero := map i | i in s'.tables.pickups :: 0;
    SumCounts(zero, {});
    SumAtMost(zero, Ranks(s'.tables));
  }
}
