// What the business rules come to under arbitrary interleaving.
module Lifecycle {
  import opened Domain
  import opened Tables
  import opened Atomic
  import opened System
  import opened Invariants
  import opened Linear

  // ---------------------------------------------------------------- completion and its payment

  ghost predicate BillsCompletion(pricing: Pricing, t: Tables, i: Id, b: Id) {
    && i in t.pickups && b in t.payments
    && t.payments[b].wasteId == i
    && t.payments[b].householdId == t.pickups[i].householdId
    && t.payments[b].amount == pricing.AmountFor(t.pickups[i].kind)
    && t.payments[b].createdAt == t.pickups[i].updatedAt
  }

  // No completed pickup is ever visible without its one payment.
  lemma CompletedHasItsPayment(cfg: Config, s: System, i: Id)
    requires Reachable(cfg, s)
    requires i in s.tables.pickups && s.tables.pickups[i].status == PickupCompleted
    ensures exists b ::
      && BillsCompletion(cfg.pricing, s.tables, i, b)
      && (forall c :: c in s.tables.payments && s.tables.payments[c].wasteId == i ==> c == b)
  {
    ReachableInv(cfg, s);
    var b :| CompletionBill(s.tables, i, b);
    assert BillOk(cfg.pricing, s.tables, s.tables.payments[b]);
    assert BillsCompletion(cfg.pricing, s.tables, i, b);
  }

  // Foreign keys resolve, a bill belongs to its pickup's household, payments are
  // well formed, and nothing gets past pending without a date and a safety check.
  lemma TablesStayConsistent(cfg: Config, s: System)
    requires Reachable(cfg, s)
    ensures forall i :: i in s.tables.pickups ==>
      && s.tables.pickups[i].id == i
      && s.tables.pickups[i].householdId in s.tables.households
      && LifecycleOk(s.tables.pickups[i])
    ensures forall b :: b in s.tables.payments ==>
      && s.tables.payments[b].id == b
      && s.tables.payments[b].householdId in s.tables.households
      && BillOk(cfg.pricing, s.tables, s.tables.payments[b])
    ensures UniqueWaste(s.tables)
  {
    ReachableInv(cfg, s);
    forall b | b in s.tables.payments
      ensures s.tables.payments[b].householdId in s.tables.households
    {
      assert BillOk(cfg.pricing, s.tables, s.tables.payments[b]);
    }
  }

  // Along any continuation pickups and payments stay and only move forward, a paid
  // row never changes, and a household goes only while nothing refers to it.
  lemma NothingIsLost(cfg: Config, s: System, run: seq<Action>)
    requires Reachable(cfg, s) && IsRun(cfg, s, run)
    ensures var u := After(cfg, s, run).tables;
      && Advances(s.tables, u)
      && (forall b :: b in s.tables.payments && s.tables.payments[b].status == PaymentPaid ==>
            u.payments[b] == s.tables.payments[b])
      && (forall i :: i in s.tables.pickups && !Open(s.tables.pickups[i]) ==> u.pickups[i] == s.tables.pickups[i])
  {
    ReachableInv(cfg, s);
    RunKeepsInv(cfg, s, run);
  }

  // ---------------------------------------------------------------- all or nothing

  // A completion changes the tables only in its commit, and then writes both rows.
  lemma CompletionIsAllOrNothing(cfg: Config, s: System, c: Client, draw: Id, fault: Option<Error>)
    requires Acting(cfg, s, c, draw) && c.request.Complete?
    ensures var m := Step(cfg, s, c, draw, fault);
      if m.client.pc.Done? && m.client.pc.result.GotPickup? then
        && c.request.id in s.tables.pickups && s.tables.pickups[c.request.id].status == PickupScheduled
        && !WasteBilled(s.tables, c.request.id)
        && m.tables.households == s.tables.households
        && m.tables.pickups == s.tables.pickups[c.request.id := m.client.pc.result.pickup]
        && m.client.pc.result.pickup == s.tables.pickups[c.request.id].(status := PickupCompleted, updatedAt := c.now)
        && m.tables.payments.Keys == s.tables.payments.Keys + {c.id} && c.id !in s.tables.payments
        && (forall b :: b in s.tables.payments ==> m.tables.payments[b] == s.tables.payments[b])
        && BillsCompletion(cfg.pricing, m.tables, c.request.id, c.id)
      else m.tables == s.tables
  {
  }

  // Meeting an existing payment, a completion says so and rolls back.
  lemma BilledCompletionRollsBack(cfg: Config, s: System, c: Client, draw: Id)
    requires Ready(cfg, s, c, draw) && c.request.Complete? && c.pc.InsertBill?
    requires AmountFits(cfg.pricing.AmountFor(c.pc.row.kind)) && WasteBilled(s.tables, c.request.id)
    ensures var m := Step(cfg, s, c, draw, None);
      m.client.pc == Done(Failed(PaymentAlreadyExists), s.steps) && m.tables == s.tables
  {
  }

  // A client that is not committing a completion completes nothing.
  lemma OnlyCommitsComplete(cfg: Config, s: System, c: Client, draw: Id, fault: Option<Error>, i: Id)
    requires Acting(cfg, s, c, draw)
    requires var u := Step(cfg, s, c, draw, fault).tables;
      i in u.pickups && u.pickups[i].status == PickupCompleted
    ensures i in s.tables.pickups
    ensures s.tables.pickups[i].status == PickupCompleted || (c.request == Complete(i) && !WasteBilled(s.tables, i))
  {
  }

  ghost predicate BilledUncompleted(t: Tables, i: Id) {
    WasteBilled(t, i) && !(i in t.pickups && t.pickups[i].status == PickupCompleted)
  }

  // A pickup billed before it was completed is not completed in any continuation.
  lemma {:induction false} BilledStaysUncompleted(cfg: Config, s: System, run: seq<Action>, i: Id)
    requires Inv(cfg, s) && IsRun(cfg, s, run) && BilledUncompleted(s.tables, i)
    ensures BilledUncompleted(After(cfg, s, run).tables, i)
  {
    if run != [] {
      var front := run[..|run| - 1];
      var f, a := After(cfg, s, front), run[|run| - 1];
      BilledStaysUncompleted(cfg, s, front, i);
      RunKeepsInv(cfg, s, front);
      NextKeepsBilled(cfg, f, a, i);
    }
  }

  lemma NextKeepsBilled(cfg: Config, s: System, a: Action, i: Id)
    requires Inv(cfg, s) && Enabled(cfg, s, a) && BilledUncompleted(s.tables, i)
    ensures BilledUncompleted(Next(cfg, s, a).tables, i)
  {
    if a.Go? {
      var c, u := s.clients[a.client], Step(cfg, s, s.clients[a.client], a.draw, a.fault).tables;
      BillStays(cfg, s, a, i);
      if i in u.pickups && u.pickups[i].status == PickupCompleted {
        OnlyCommitsComplete(cfg, s, c, a.draw, a.fault, i);
      }
    }
  }

  lemma BillStays(cfg: Config, s: System, a: Action, i: Id)
    requires Inv(cfg, s) && Enabled(cfg, s, a) && WasteBilled(s.tables, i)
    ensures WasteBilled(Next(cfg, s, a).tables, i)
  {
    NextKeepsInv(cfg, s, a);
    var b :| b in s.tables.payments && s.tables.payments[b].wasteId == i;
    assert Next(cfg, s, a).tables.payments[b].wasteId == i;
  }

  // ---------------------------------------------------------------- truthful diagnosis

  // Whatever happened between the lost guard and the second read, Schedule reports
  // the rule the row breaks at that read, the status first; its last fallback, "not
  // pending" of a row that breaks none, is never reached.
  lemma ScheduleDiagnosisIsTrue(cfg: Config, s: System, k: ClientId, draw: Id)
    requires Reachable(cfg, s) && Enabled(cfg, s, Go(k, draw, None))
    requires s.clients[k].request.Schedule? && s.clients[k].pc.Reread?
    ensures var id, c' := s.clients[k].request.id, Next(cfg, s, Go(k, draw, None)).clients[k];
      && c'.pc.Done?
      && (id !in s.tables.pickups ==> c'.pc.result == Failed(PickupNotFound))
      && (id in s.tables.pickups ==>
            var row := s.tables.pickups[id];
            if row.status != PickupPending then c'.pc.result == Failed(PickupNotPending)
            else row.kind == Electronic && !row.safetyCheck && c'.pc.result == Failed(SafetyCheckRequired))
  {
    ReachableInv(cfg, s);
    assert ClientOk(cfg, s, s.clients[k]);
  }

  lemma CancelDiagnosisIsTrue(cfg: Config, s: System, k: ClientId, draw: Id)
    requires Reachable(cfg, s) && Enabled(cfg, s, Go(k, draw, None))
    requires s.clients[k].request.Cancel? && s.clients[k].pc.Reread?
    ensures var id, c' := s.clients[k].request.id, Next(cfg, s, Go(k, draw, None)).clients[k];
      && c'.pc.Done?
      && (id !in s.tables.pickups ==> c'.pc.result == Failed(PickupNotFound))
      && (id in s.tables.pickups ==>
            && s.tables.pickups[id].status in {PickupCompleted, PickupCanceled}
            && c'.pc.result == Failed(PickupNotCancelable))
  {
    ReachableInv(cfg, s);
    assert ClientOk(cfg, s, s.clients[k]);
  }

  // Complete does not look at the status it reads back. Action n of the run was the
  // update of client k's completion r, and its guard refused: the pickup was not scheduled.
  ghost predicate LostAt(cfg: Config, s: System, run: seq<Action>, k: ClientId, r: Request, n: nat) {
    && r.Complete? && n < |run| && IsRun(cfg, s, run[..n])
    && k in After(cfg, s, run[..n]).clients
    && After(cfg, s, run[..n]).clients[k].request == r
    && After(cfg, s, run[..n]).clients[k].pc.TryUpdate?
    && !IsScheduled(After(cfg, s, run[..n]).tables, r.id)
    && run[n].Go? && run[n].client == k && run[n].fault.None?
  }

  ghost predicate LostGuard(c: Client) {
    c.request.Complete? && c.pc.Reread?
  }

  lemma {:induction false} WasLost(cfg: Config, s: System, run: seq<Action>, k: ClientId)
    requires Initial(s) && IsRun(cfg, s, run)
    requires k in After(cfg, s, run).clients && LostGuard(After(cfg, s, run).clients[k])
    ensures exists n: nat :: LostAt(cfg, s, run, k, After(cfg, s, run).clients[k].request, n)
  {
    assert run != [];
    var front, a := run[..|run| - 1], run[|run| - 1];
    var f, r := After(cfg, s, front), After(cfg, s, run).clients[k].request;
    if k in f.clients && LostGuard(f.clients[k]) {
      WasLost(cfg, s, front, k);
      StepKeepsRequest(cfg, f, a, k);
      var n: nat :| LostAt(cfg, s, front, k, r, n);
      assert front[..n] == run[..n];
      assert LostAt(cfg, s, run, k, r, n);
    } else {
      LosesGuard(cfg, f, a, k);
      assert run[..|front|] == front;
      assert LostAt(cfg, s, run, k, r, |front|);
    }
  }

  lemma StepKeepsRequest(cfg: Config, s: System, a: Action, k: ClientId)
    requires Enabled(cfg, s, a) && k in s.clients
    ensures k in Next(cfg, s, a).clients
    ensures var c, d := s.clients[k], Next(cfg, s, a).clients[k]; d.request == c.request && d.called == c.called
  {
  }

  lemma LosesGuard(cfg: Config, s: System, a: Action, k: ClientId)
    requires Enabled(cfg, s, a) && k in Next(cfg, s, a).clients && LostGuard(Next(cfg, s, a).clients[k])
    requires k in s.clients ==> !LostGuard(s.clients[k])
    ensures k in s.clients && s.clients[k].request == Next(cfg, s, a).clients[k].request
    ensures s.clients[k].pc.TryUpdate? && !IsScheduled(s.tables, s.clients[k].request.id)
    ensures a.Go? && a.client == k && a.fault.None?
  {
  }

  // The call scheduled the pickup, at action number `at` or later.
  ghost predicate WonSchedule(c: Client, id: Id, at: nat) {
    c.request.Schedule? && c.request.id == id && c.pc.Done? && c.pc.result.GotPickup? && at <= c.pc.returned
  }

  ghost predicate ScheduledSince(s: System, id: Id, at: nat) {
    exists l :: l in s.clients && WonSchedule(s.clients[l], id, at)
  }

  ghost predicate RowTells(s: System, id: Id, at: nat) {
    && (IsScheduled(s.tables, id) ==> ScheduledSince(s, id, at))
    && (ScheduledSince(s, id, at) ==> id in s.tables.pickups && s.tables.pickups[id].status != PickupPending)
  }

  // A row gets scheduled by a call that says so, and is never pending again.
  lemma StepSchedules(cfg: Config, s: System, c: Client, draw: Id, fault: Option<Error>, id: Id, at: nat)
    requires Acting(cfg, s, c, draw) && at <= s.steps
    ensures var m := Step(cfg, s, c, draw, fault);
      && (WonSchedule(m.client, id, at) ==> IsScheduled(m.tables, id))
      && (IsScheduled(m.tables, id) ==> IsScheduled(s.tables, id) || WonSchedule(m.client, id, at))
  {
  }

  lemma PutTells(s: System, k: ClientId, c: Client, s': System, id: Id, at: nat)
    requires RowTells(s, id, at) && Advances(s.tables, s'.tables)
    requires s'.clients == s.clients[k := c] && (k in s.clients ==> !s.clients[k].pc.Done?)
    requires WonSchedule(c, id, at) ==> IsScheduled(s'.tables, id)
    requires IsScheduled(s'.tables, id) ==> IsScheduled(s.tables, id) || WonSchedule(c, id, at)
    ensures RowTells(s', id, at)
  {
    if ScheduledSince(s, id, at) {
      var l :| l in s.clients && WonSchedule(s.clients[l], id, at);
      assert l in s'.clients && WonSchedule(s'.clients[l], id, at);
    }
    if WonSchedule(c, id, at) {
      assert k in s'.clients && WonSchedule(s'.clients[k], id, at);
    } else if l :| l in s'.clients && WonSchedule(s'.clients[l], id, at) {
      assert WonSchedule(s.clients[l], id, at);
    }
  }

  lemma NextTells(cfg: Config, s: System, a: Action, id: Id, at: nat)
    requires Inv(cfg, s) && Enabled(cfg, s, a) && RowTells(s, id, at) && at <= s.steps
    ensures RowTells(Next(cfg, s, a), id, at)
  {
    var s' := Next(cfg, s, a);
    assert Advances(s.tables, s'.tables) by {
      NextKeepsInv(cfg, s, a);
    }
    match a {
      case Tick(_) =>
      case Call(k, _) => PutTells(s, k, s'.clients[k], s', id, at);
      case Go(k, draw, fault) =>
        StepSchedules(cfg, s, s.clients[k], draw, fault, id, at);
        PutTells(s, k, s'.clients[k], s', id, at);
    }
  }

  lemma {:induction false} RunTells(cfg: Config, s: System, run: seq<Action>, n: nat, id: Id)
    requires Inv(cfg, s) && IsRun(cfg, s, run) && n <= |run| && IsRun(cfg, s, run[..n])
    requires !IsScheduled(After(cfg, s, run[..n]).tables, id)
    ensures After(cfg, s, run[..n]).steps <= After(cfg, s, run).steps
    ensures RowTells(After(cfg, s, run), id, After(cfg, s, run[..n]).steps)
    decreases |run|
  {
    if n == |run| {
      assert run[..n] == run;
      RunKeepsInv(cfg, s, run);
    } else {
      var front := run[..|run| - 1];
      assert front[..n] == run[..n];
      RunTells(cfg, s, front, n, id);
      RunKeepsInv(cfg, s, front);
      NextTells(cfg, After(cfg, s, front), run[|run| - 1], id, After(cfg, s, run[..n]).steps);
    }
  }

  // A completion about to report "not scheduled" did lose its guard to that; at the
  // report it is false exactly if a Schedule has succeeded in between and nothing has
  // closed the pickup since.
  lemma CompleteDiagnosisExactly(cfg: Config, s: System, run: seq<Action>, k: ClientId)
    requires Initial(s) && IsRun(cfg, s, run)
    requires k in After(cfg, s, run).clients && LostGuard(After(cfg, s, run).clients[k])
    ensures var s', id := After(cfg, s, run), After(cfg, s, run).clients[k].request.id;
      exists n: nat ::
        && LostAt(cfg, s, run, k, s'.clients[k].request, n)
        && (IsScheduled(s'.tables, id) <==>
              && id in s'.tables.pickups && Open(s'.tables.pickups[id])
              && ScheduledSince(s', id, After(cfg, s, run[..n]).steps))
  {
    WasLost(cfg, s, run, k);
    var r := After(cfg, s, run).clients[k].request;
    var n: nat :| LostAt(cfg, s, run, k, r, n);
    assert Inv(cfg, s) by {
      InitialInv(cfg, s);
    }
    RunTells(cfg, s, run, n, r.id);
  }

  // However long a completion that lost its guard pauses before the second read, it
  // then answers what was so when the guard was lost.
  lemma LostAnswerStands(cfg: Config, s: System, run: seq<Action>, k: ClientId, draw: Id)
    requires Inv(cfg, s) && IsRun(cfg, s, run) && k in s.clients && LostGuard(s.clients[k])
    ensures k in After(cfg, s, run).clients
    ensures var s', a := After(cfg, s, run), Go(k, draw, None);
      LostGuard(s'.clients[k]) && Enabled(cfg, s', a) ==>
        Next(cfg, s', a).clients[k].pc == Done(LostCompletion(s.tables, s.clients[k].request.id), s'.steps)
  {
    ClientStays(cfg, s, run, k);
    RunKeepsInv(cfg, s, run);
    if s.clients[k].request.id !in s.tables.pickups {
      AbsentTargetStaysAbsent(cfg, s, run, k);
    }
  }

  lemma {:induction false} ClientStays(cfg: Config, s: System, run: seq<Action>, k: ClientId)
    requires IsRun(cfg, s, run) && k in s.clients
    ensures k in After(cfg, s, run).clients && After(cfg, s, run).clients[k].request == s.clients[k].request
  {
    if run != [] {
      ClientStays(cfg, s, run[..|run| - 1], k);
      StepKeepsRequest(cfg, After(cfg, s, run[..|run| - 1]), run[|run| - 1], k);
    }
  }

  // A pickup a call could name and did not find does not turn up before that call ends.
  lemma {:induction false} AbsentTargetStaysAbsent(cfg: Config, s: System, run: seq<Action>, k: ClientId)
    requires Inv(cfg, s) && IsRun(cfg, s, run)
    requires k in s.clients && Target(s.clients[k].request).Some?
    requires Target(s.clients[k].request).value !in s.tables.pickups
    ensures k in After(cfg, s, run).clients && After(cfg, s, run).clients[k].request == s.clients[k].request
    ensures Target(s.clients[k].request).value !in After(cfg, s, run).tables.pickups
  {
    if run != [] {
      var front := run[..|run| - 1];
      var f, a := After(cfg, s, front), run[|run| - 1];
      AbsentTargetStaysAbsent(cfg, s, front, k);
      RunKeepsInv(cfg, s, front);
      NextKeepsAbsent(cfg, f, a, k);
    }
  }

  lemma NextKeepsAbsent(cfg: Config, s: System, a: Action, k: ClientId)
    requires Inv(cfg, s) && Enabled(cfg, s, a) && k in s.clients && Target(s.clients[k].request).Some?
    requires Target(s.clients[k].request).value !in s.tables.pickups
    ensures k in Next(cfg, s, a).clients && Next(cfg, s, a).clients[k].request == s.clients[k].request
    ensures Target(s.clients[k].request).value !in Next(cfg, s, a).tables.pickups
  {
    if a.Go? {
      var c := s.clients[a.client];
      assert Ready(cfg, s, c, a.draw);
      NewKeysAreOwn(cfg, s, c, a.draw, a.fault);
      TakesOwn(cfg, s, c, a.draw, a.fault);
      assert a.client != k ==> Apart(s.clients[k], c);
    }
  }
}
