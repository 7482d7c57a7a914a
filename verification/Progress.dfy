// Locks never lead to a standstill, and every call ends after a few steps.
module Progress {
  import opened Domain
  import opened Atomic
  import opened System
  import opened Invariants
  import opened Sums

  // How many repository, storage and local steps a call takes at most.
  function StepsFor(r: Request): nat {
    match r
    case CreatePickup(_, _, _) => 4
    case Schedule(_, _) => 3
    case Complete(_) => 4
    case Cancel(_) => 3
    case CancelStaleOrganic => 2
    case CreatePayment(_, _) => 3
    case Confirm(_, _) => 4
    case CreateHousehold(_, _) => 2
    case DeleteHousehold(_) => 1
  }

  // How many it can still take.
  function StepsLeft(c: Client): nat {
    match c.pc
    case Called => StepsFor(c.request)
    case UploadProof => 3
    case StampProof => 2
    case TryUpdate => if c.request.Complete? then 3 else if c.request.Schedule? || c.request.Cancel? then 2 else 1
    case CheckPending => 3
    case InsertRow => if c.request.CreatePickup? then 2 else 1
    case PriceBill(_) => 2
    case InsertBill(_) => 2
    case InsertManualBill(_) => 1
    case CommitRow => 1
    case CommitBill(_) => 1
    case Reread => 1
    case Done(_, _) => 0
  }

  lemma StepGetsOn(cfg: Config, s: System, c: Client, draw: Id, fault: Option<Error>)
    requires ShapeOk(c) && !c.pc.Done?
    ensures StepsLeft(Step(cfg, s, c, draw, fault).client) < StepsLeft(c)
  {
  }

  ghost predicate Free(cfg: Config, s: System, k: ClientId) {
    && k in s.clients && !s.clients[k].pc.Done?
    && forall d :: d in s.clients && d != k ==> !Blocks(cfg, s.tables, s.clients[d], s.clients[k])
  }

  // Who waits: an update or cancellation for the completion that holds its pickup, a
  // sweep for one that holds a pickup it is after, an insert of a payment for the one
  // that has inserted the same pickup's, a household's deletion for a creation that
  // refers to it; and nobody else.
  lemma WaitsExactly(cfg: Config, s: System, k: ClientId, d: ClientId)
    requires Inv(cfg, s) && k in s.clients && d in s.clients
    ensures var c, e := s.clients[k], s.clients[d];
      Blocks(cfg, s.tables, e, c) <==>
        || (e.request.Complete? && (e.pc.InsertBill? || e.pc.CommitBill?) && c.pc.TryUpdate?
            && (c.request == Complete(e.request.id) || c.request == Cancel(e.request.id)))
        || (e.request.Complete? && (e.pc.InsertBill? || e.pc.CommitBill?) && c.pc.TryUpdate?
            && c.request.CancelStaleOrganic? && s.tables.pickups[e.request.id].kind == Organic
            && s.tables.pickups[e.request.id].createdAt < c.now - cfg.organicTTL)
        || (e.request.Complete? && e.pc.CommitBill? && c.pc.InsertBill? && c.request == Complete(e.request.id))
        || (e.request.Complete? && e.pc.CommitBill? && c.pc.InsertManualBill?
            && c.request.CreatePayment? && c.request.wasteId == e.request.id)
        || (e.request.CreatePickup? && e.pc.CommitRow? && c.pc.Called?
            && c.request == DeleteHousehold(e.request.householdId))
  {
    assert ClientOk(cfg, s, s.clients[k]) && ClientOk(cfg, s, s.clients[d]);
  }

  // Whoever makes another call wait does not have to wait itself.
  lemma BlockerIsFree(cfg: Config, s: System, k: ClientId, d: ClientId)
    requires Inv(cfg, s) && k in s.clients && d in s.clients && k != d
    requires Blocks(cfg, s.tables, s.clients[d], s.clients[k])
    ensures Free(cfg, s, d)
  {
    var blocker := s.clients[d];
    assert ClientOk(cfg, s, blocker);
    forall e | e in s.clients && e != d
      ensures !Blocks(cfg, s.tables, s.clients[e], blocker)
    {
      assert ClientOk(cfg, s, s.clients[e]);
      assert Apart(blocker, s.clients[e]);
    }
  }

  // While any call is unfinished, some unfinished call can take its next step.
  lemma NoDeadlock(cfg: Config, s: System, k: ClientId)
    requires Reachable(cfg, s) && k in s.clients && !s.clients[k].pc.Done?
    ensures exists d :: Free(cfg, s, d)
    ensures forall d, draw :: Free(cfg, s, d) && draw !in s.used ==> Enabled(cfg, s, Go(d, draw, None))
  {
    ReachableInv(cfg, s);
    SomeFree(cfg, s, k);
  }

  lemma SomeFree(cfg: Config, s: System, k: ClientId)
    requires Inv(cfg, s) && k in s.clients && !s.clients[k].pc.Done?
    ensures exists d :: Free(cfg, s, d)
  {
    if d :| d in s.clients && d != k && Blocks(cfg, s.tables, s.clients[d], s.clients[k]) {
      BlockerIsFree(cfg, s, k, d);
    } else {
      assert Free(cfg, s, k);
    }
  }

  lemma {:induction false} UnusedId(used: set<Id>) returns (id: Id)
    ensures forall u :: u in used ==> u < id
  {
    if used == {} {
      id := 0;
    } else {
      var u :| u in used;
      var above := UnusedId(used - {u});
      id := if above > u then above else u + 1;
      forall v | v in used
        ensures v < id
      {
        assert v == u || v in used - {u};
      }
    }
  }

  // ---------------------------------------------------------------- everybody can finish

  ghost predicate AllDone(s: System) {
    forall k :: k in s.clients ==> s.clients[k].pc.Done?
  }

  ghost function Pending(s: System): map<nat, int> {
    map k | k in s.clients :: StepsLeft(s.clients[k])
  }

  lemma {:induction false} RunPrepend(cfg: Config, s: System, a: Action, run: seq<Action>)
    requires Enabled(cfg, s, a) && IsRun(cfg, Next(cfg, s, a), run)
    ensures IsRun(cfg, s, [a] + run) && After(cfg, s, [a] + run) == After(cfg, Next(cfg, s, a), run)
  {
    var whole := [a] + run;
    if run == [] {
      assert whole[..|whole| - 1] == [];
      assert IsRun(cfg, s, []);
    } else {
      RunPrepend(cfg, s, a, run[..|run| - 1]);
      assert whole[..|whole| - 1] == [a] + run[..|run| - 1];
    }
  }

  lemma SumNotNegative(m: map<nat, int>)
    requires forall k :: k in m ==> 0 <= m[k]
    ensures 0 <= Sum(m)
  {
    var zero := map k | k in m :: 0;
    SumCounts(zero, {});
    SumAtMost(zero, m);
  }

  lemma PendingAfter(cfg: Config, s: System, a: Action)
    requires Enabled(cfg, s, a) && a.Go?
    ensures Pending(Next(cfg, s, a)) == Pending(s)[a.client := StepsLeft(Next(cfg, s, a).clients[a.client])]
  {
    var m := Step(cfg, s, s.clients[a.client], a.draw, a.fault);
    assert Next(cfg, s, a).clients == s.clients[a.client := m.client];
  }

  lemma GoLowersPending(cfg: Config, s: System, a: Action)
    requires Inv(cfg, s) && Enabled(cfg, s, a) && a.Go?
    ensures Sum(Pending(Next(cfg, s, a))) < Sum(Pending(s))
  {
    var left := StepsLeft(Next(cfg, s, a).clients[a.client]);
    assert left < Pending(s)[a.client] by {
      assert ClientOk(cfg, s, s.clients[a.client]);
      StepGetsOn(cfg, s, s.clients[a.client], a.draw, a.fault);
    }
    PendingAfter(cfg, s, a);
    SumUpdate(Pending(s), a.client, left);
  }

  lemma FreeStep(cfg: Config, s: System) returns (a: Action)
    requires Inv(cfg, s) && !AllDone(s)
    ensures a.Go? && Enabled(cfg, s, a) && Inv(cfg, Next(cfg, s, a))
    ensures Sum(Pending(Next(cfg, s, a))) < Sum(Pending(s))
  {
    var k :| k in s.clients && !s.clients[k].pc.Done?;
    SomeFree(cfg, s, k);
    var d :| Free(cfg, s, d);
    var draw := UnusedId(s.used);
    a := Go(d, draw, None);
    GoLowersPending(cfg, s, a);
    NextKeepsInv(cfg, s, a);
  }

  lemma {:induction false} RunToEnd(cfg: Config, s: System, bound: nat) returns (run: seq<Action>)
    requires Inv(cfg, s) && Sum(Pending(s)) <= bound
    ensures IsRun(cfg, s, run) && AllDone(After(cfg, s, run))
    ensures forall i :: 0 <= i < |run| ==> run[i].Go?
    decreases bound
  {
    SumNotNegative(Pending(s));
    if AllDone(s) {
      run := [];
    } else {
      var a := FreeStep(cfg, s);
      SumNotNegative(Pending(Next(cfg, s, a)));
      var rest := RunToEnd(cfg, Next(cfg, s, a), bound - 1);
      RunPrepend(cfg, s, a, rest);
      run := [a] + rest;
    }
  }

  // How often client k takes a step in a run.
  ghost function StepsOf(run: seq<Action>, k: ClientId): nat {
    if run == [] then 0
    else StepsOf(run[..|run| - 1], k) + if run[|run| - 1].Go? && run[|run| - 1].client == k then 1 else 0
  }

  // No run keeps a call going for ever: each takes at most the steps it had left.
  lemma {:induction false} EveryCallEnds(cfg: Config, s: System, run: seq<Action>, k: ClientId)
    requires Inv(cfg, s) && IsRun(cfg, s, run)
    ensures k in s.clients ==>
      && k in After(cfg, s, run).clients
      && StepsOf(run, k) + StepsLeft(After(cfg, s, run).clients[k]) <= StepsLeft(s.clients[k])
    ensures
      if k in After(cfg, s, run).clients then
        var c := After(cfg, s, run).clients[k];
        StepsOf(run, k) + StepsLeft(c) <= StepsFor(c.request) <= 4
      else StepsOf(run, k) == 0
  {
    if run != [] {
      var front := run[..|run| - 1];
      EveryCallEnds(cfg, s, front, k);
      RunKeepsInv(cfg, s, front);
      NextStepsLeft(cfg, After(cfg, s, front), run[|run| - 1], k);
    }
  }

  lemma NextStepsLeft(cfg: Config, s: System, a: Action, k: ClientId)
    requires Inv(cfg, s) && Enabled(cfg, s, a)
    ensures k in s.clients ==> k in Next(cfg, s, a).clients
    ensures var s' := Next(cfg, s, a);
      if a.Go? && a.client == k then
        StepsLeft(s'.clients[k]) < StepsLeft(s.clients[k]) && s'.clients[k].request == s.clients[k].request
      else k in s.clients ==> s'.clients[k] == s.clients[k]
  {
    if a.Go? {
      assert ClientOk(cfg, s, s.clients[a.client]);
      StepGetsOn(cfg, s, s.clients[a.client], a.draw, a.fault);
    }
  }

  // From every reachable state all calls in flight can run to their end, with nothing
  // else going on, in at most four steps each.
  lemma EveryCallCanFinish(cfg: Config, s: System)
    requires Reachable(cfg, s)
    ensures exists run: seq<Action> ::
      && IsRun(cfg, s, run) && AllDone(After(cfg, s, run))
      && (forall i :: 0 <= i < |run| ==> run[i].Go?)
      && (forall k :: k in s.clients ==> StepsOf(run, k) <= StepsLeft(s.clients[k]) <= 4)
  {
    ReachableInv(cfg, s);
    SumNotNegative(Pending(s));
    var run := RunToEnd(cfg, s, Sum(Pending(s)));
    forall k | k in s.clients
      ensures StepsOf(run, k) <= StepsLeft(s.clients[k]) <= 4
    {
      EveryCallEnds(cfg, s, run, k);
    }
  }
}
