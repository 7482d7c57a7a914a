// Rule 1, that a household with a pending payment gets no new pickup, and how far it
// goes when calls run side by side.
module PendingRule {
  import opened Domain
  import opened Tables
  import opened TableFacts
  import opened Atomic
  import opened System
  import opened Invariants
  import opened Lifecycle
  import opened Linear
  import opened Proofs

  // ---------------------------------------------------------------- the look

  // Action n of the run was the look of creating call c, number k, for pending
  // payments, and there were none.
  ghost predicate CheckedAt(cfg: Config, s: System, run: seq<Action>, k: ClientId, c: Client, n: nat) {
    && c.request.CreatePickup? && n < |run| && IsRun(cfg, s, run[..n])
    && run[n].Go? && run[n].client == k && run[n].fault.None?
    && k in After(cfg, s, run[..n]).clients
    && After(cfg, s, run[..n]).clients[k].request == c.request
    && After(cfg, s, run[..n]).clients[k].called == c.called
    && After(cfg, s, run[..n]).clients[k].pc.CheckPending?
    && !HasPending(After(cfg, s, run[..n]).tables, c.request.householdId)
  }

  lemma {:induction false} WasChecked(cfg: Config, s: System, run: seq<Action>, k: ClientId)
    requires Initial(s) && IsRun(cfg, s, run)
    requires k in After(cfg, s, run).clients && PastCheck(After(cfg, s, run).clients[k])
    ensures exists n: nat :: CheckedAt(cfg, s, run, k, After(cfg, s, run).clients[k], n)
  {
    assert run != [];
    var front, a := run[..|run| - 1], run[|run| - 1];
    var f, c := After(cfg, s, front), After(cfg, s, run).clients[k];
    if k in f.clients && PastCheck(f.clients[k]) {
      WasChecked(cfg, s, front, k);
      StepKeepsRequest(cfg, f, a, k);
      var n: nat :| CheckedAt(cfg, s, front, k, f.clients[k], n);
      assert front[..n] == run[..n];
      assert CheckedAt(cfg, s, run, k, c, n);
    } else {
      GetsPastCheck(cfg, f, a, k);
      assert run[..|front|] == front;
      assert CheckedAt(cfg, s, run, k, c, |front|);
    }
  }

  // Only a look that finds nothing gets a call past its check.
  lemma GetsPastCheck(cfg: Config, s: System, a: Action, k: ClientId)
    requires Enabled(cfg, s, a) && k in Next(cfg, s, a).clients && PastCheck(Next(cfg, s, a).clients[k])
    requires k in s.clients ==> !PastCheck(s.clients[k])
    ensures a.Go? && a.client == k && a.fault.None? && k in s.clients
    ensures var c, d := s.clients[k], Next(cfg, s, a).clients[k]; c.request == d.request && c.called == d.called
    ensures s.clients[k].pc.CheckPending? && !HasPending(s.tables, s.clients[k].request.householdId)
  {
  }

  // ---------------------------------------------------------------- who raised which payment

  // The call raised payment b for the household, in action number `at` or later.
  ghost predicate Raised(c: Client, b: Id, householdId: Id, at: nat) {
    && c.pc.Done? && at <= c.pc.returned && c.id == b
    && (|| (c.request.CreatePayment? && c.pc.result.GotPayment? && c.request.householdId == householdId)
        || (c.request.Complete? && c.pc.result.GotPickup? && c.pc.result.pickup.householdId == householdId))
  }

  ghost predicate RaisedSince(s: System, b: Id, householdId: Id, at: nat) {
    exists l :: l in s.clients && Raised(s.clients[l], b, householdId, at)
  }

  // The payments in s that were not in t are those that calls have raised since.
  ghost predicate PaymentsSince(t: Tables, s: System, at: nat) {
    && t.payments.Keys <= s.tables.payments.Keys
    && (forall b, h :: RaisedSince(s, b, h, at) ==>
          b in s.tables.payments && b !in t.payments && s.tables.payments[b].householdId == h)
    && (forall b :: b in s.tables.payments && b !in t.payments ==>
          RaisedSince(s, b, s.tables.payments[b].householdId, at))
  }

  // A step adds a payment exactly if its call then answers that it has.
  ghost predicate RaisesRight(t: Tables, u: Tables, c: Client, at: nat) {
    && (forall b :: b in t.payments ==> b in u.payments && u.payments[b].householdId == t.payments[b].householdId)
    && (forall b, h :: Raised(c, b, h, at) ==> b in u.payments && b !in t.payments && u.payments[b].householdId == h)
    && (forall b :: b in u.payments && b !in t.payments ==> Raised(c, b, u.payments[b].householdId, at))
  }

  lemma CompletionRaises(cfg: Config, s: System, c: Client, draw: Id, at: nat)
    requires Acting(cfg, s, c, draw) && at <= s.steps && c.request.Complete?
    ensures var m := StepComplete(cfg, s, c, draw); RaisesRight(s.tables, m.tables, m.client, at)
  {
  }

  lemma ManualRaises(cfg: Config, s: System, c: Client, draw: Id, at: nat)
    requires Acting(cfg, s, c, draw) && at <= s.steps && c.request.CreatePayment?
    ensures var m := StepCreatePayment(cfg, s, c, draw); RaisesRight(s.tables, m.tables, m.client, at)
  {
  }

  lemma StepRaises(cfg: Config, s: System, c: Client, draw: Id, fault: Option<Error>, at: nat)
    requires Acting(cfg, s, c, draw) && at <= s.steps
    ensures var m := Step(cfg, s, c, draw, fault); RaisesRight(s.tables, m.tables, m.client, at)
  {
    if c.request.Complete? {
      CompletionRaises(cfg, s, c, draw, at);
    } else if c.request.CreatePayment? {
      ManualRaises(cfg, s, c, draw, at);
    } else {
      assert Step(cfg, s, c, draw, fault).tables.payments.Keys == s.tables.payments.Keys;
    }
  }

  lemma PutRaises(t: Tables, s: System, k: ClientId, c: Client, s': System, at: nat)
    requires PaymentsSince(t, s, at) && RaisesRight(s.tables, s'.tables, c, at)
    requires s'.clients == s.clients[k := c] && (k in s.clients ==> !s.clients[k].pc.Done?)
    ensures PaymentsSince(t, s', at)
  {
    forall b, h | RaisedSince(s', b, h, at)
      ensures b in s'.tables.payments && b !in t.payments && s'.tables.payments[b].householdId == h
    {
      var l :| l in s'.clients && Raised(s'.clients[l], b, h, at);
      if l != k {
        assert Raised(s.clients[l], b, h, at);
        assert RaisedSince(s, b, h, at);
      }
    }
    forall b | b in s'.tables.payments && b !in t.payments
      ensures RaisedSince(s', b, s'.tables.payments[b].householdId, at)
    {
      var h := s'.tables.payments[b].householdId;
      if b in s.tables.payments {
        var l :| l in s.clients && Raised(s.clients[l], b, h, at);
        assert l in s'.clients && Raised(s'.clients[l], b, h, at);
      } else {
        assert k in s'.clients && Raised(s'.clients[k], b, h, at);
      }
    }
  }

  lemma NextRaises(cfg: Config, t: Tables, s: System, a: Action, at: nat)
    requires Inv(cfg, s) && Enabled(cfg, s, a) && PaymentsSince(t, s, at) && at <= s.steps
    ensures PaymentsSince(t, Next(cfg, s, a), at)
  {
    var s' := Next(cfg, s, a);
    match a {
      case Tick(_) =>
        assert forall b, h :: RaisedSince(s', b, h, at) <==> RaisedSince(s, b, h, at);
      case Call(k, _) => PutRaises(t, s, k, s'.clients[k], s', at);
      case Go(k, draw, fault) =>
        StepRaises(cfg, s, s.clients[k], draw, fault, at);
        PutRaises(t, s, k, s'.clients[k], s', at);
    }
  }

  // From action n on.
  lemma {:induction false} RunSince(cfg: Config, s: System, run: seq<Action>, n: nat)
    requires Inv(cfg, s) && IsRun(cfg, s, run) && n <= |run|
    ensures IsRun(cfg, s, run[..n])
    ensures var f, s' := After(cfg, s, run[..n]), After(cfg, s, run);
      f.steps <= s'.steps && Advances(f.tables, s'.tables) && PaymentsSince(f.tables, s', f.steps)
    decreases |run|
  {
    if n == |run| {
      assert run[..n] == run;
      RunKeepsInv(cfg, s, run);
      NothingSince(cfg, After(cfg, s, run));
    } else {
      var front := run[..|run| - 1];
      RunSince(cfg, s, front, n);
      assert front[..n] == run[..n];
      RunKeepsInv(cfg, s, front);
      var f, g := After(cfg, s, run[..n]), After(cfg, s, front);
      NextKeepsInv(cfg, g, run[|run| - 1]);
      AdvancesTransitive(f.tables, g.tables, After(cfg, s, run).tables);
      NextRaises(cfg, f.tables, g, run[|run| - 1], f.steps);
    }
  }

  lemma NothingSince(cfg: Config, s: System)
    requires Inv(cfg, s)
    ensures PaymentsSince(s.tables, s, s.steps) && Advances(s.tables, s.tables)
  {
    AdvancesReflexive(s.tables);
    forall b, h
      ensures !RaisedSince(s, b, h, s.steps)
    {
    }
  }

  // ---------------------------------------------------------------- the rule

  // A call has raised a payment for the household since, and no confirmation of it has succeeded.
  ghost predicate UnpaidSince(s: System, householdId: Id, at: nat) {
    exists b :: RaisedSince(s, b, householdId, at) && !HasWinner(s.clients, b)
  }

  lemma PendingIsUnpaid(cfg: Config, t: Tables, s: System, householdId: Id, at: nat)
    requires Reachable(cfg, s) && Advances(t, s.tables) && PaymentsSince(t, s, at)
    requires !HasPending(t, householdId) && HasPending(s.tables, householdId)
    ensures UnpaidSince(s, householdId, at)
  {
    var b :| b in s.tables.payments && PendingFor(s.tables.payments[b], householdId);
    PaidByItsWinner(cfg, s, b);
    assert b !in t.payments by {
      assert b in t.payments ==> PendingFor(t.payments[b], householdId);
    }
    assert RaisedSince(s, b, householdId, at) && !HasWinner(s.clients, b);
  }

  lemma UnpaidIsPending(cfg: Config, t: Tables, s: System, householdId: Id, at: nat)
    requires Reachable(cfg, s) && PaymentsSince(t, s, at) && UnpaidSince(s, householdId, at)
    ensures HasPending(s.tables, householdId)
  {
    var b :| RaisedSince(s, b, householdId, at) && !HasWinner(s.clients, b);
    PaidByItsWinner(cfg, s, b);
    assert s.tables.payments[b].status != PaymentFailed by {
      TablesStayConsistent(cfg, s);
    }
    assert PendingFor(s.tables.payments[b], householdId);
  }

  // Rule 1, exactly as far as it goes: a call that created a pickup looked, and found
  // nothing pending; at any moment after that look something is pending for the
  // household exactly if a payment call or a completion for it has succeeded since the
  // look and no confirmation of that payment has.
  lemma Rule1Exactly(cfg: Config, s: System, run: seq<Action>, k: ClientId)
    requires Initial(s) && IsRun(cfg, s, run)
    requires k in After(cfg, s, run).clients && PastCheck(After(cfg, s, run).clients[k])
    ensures var s', c := After(cfg, s, run), After(cfg, s, run).clients[k];
      exists n: nat ::
        && CheckedAt(cfg, s, run, k, c, n)
        && (HasPending(s'.tables, c.request.householdId) <==>
              UnpaidSince(s', c.request.householdId, After(cfg, s, run[..n]).steps))
  {
    var s', c := After(cfg, s, run), After(cfg, s, run).clients[k];
    WasChecked(cfg, s, run, k);
    var n: nat :| CheckedAt(cfg, s, run, k, c, n);
    assert Inv(cfg, s) by {
      InitialInv(cfg, s);
    }
    RunSince(cfg, s, run, n);
    assert Leads(cfg, s, run, s');
    var f := After(cfg, s, run[..n]);
    if HasPending(s'.tables, c.request.householdId) {
      PendingIsUnpaid(cfg, f.tables, s', c.request.householdId, f.steps);
    }
    if UnpaidSince(s', c.request.householdId, f.steps) {
      UnpaidIsPending(cfg, f.tables, s', c.request.householdId, f.steps);
    }
  }

  // So the rule holds when a pickup has just been created, provided no call that raised
  // a payment for the household overlapped with the creating one.
  lemma Rule1WithoutOverlap(cfg: Config, s: System, run: seq<Action>, k: ClientId)
    requires Initial(s) && IsRun(cfg, s, run)
    requires var s' := After(cfg, s, run);
      && k in s'.clients && s'.clients[k].request.CreatePickup?
      && s'.clients[k].pc.Done? && s'.clients[k].pc.result.GotPickup?
      && s'.clients[k].pc.returned + 1 == s'.steps
      && forall l, b :: l in s'.clients && Raised(s'.clients[l], b, s'.clients[k].request.householdId, 0) ==>
           Precedes(s'.clients[l], s'.clients[k]) || Precedes(s'.clients[k], s'.clients[l])
    ensures !HasPending(After(cfg, s, run).tables, After(cfg, s, run).clients[k].request.householdId)
  {
    var s', c := After(cfg, s, run), After(cfg, s, run).clients[k];
    Rule1Exactly(cfg, s, run, k);
    var n: nat :| CheckedAt(cfg, s, run, k, c, n)
      && (HasPending(s'.tables, c.request.householdId) <==>
            UnpaidSince(s', c.request.householdId, After(cfg, s, run[..n]).steps));
    InitialInv(cfg, s);
    RunKeepsInv(cfg, s, run);
    RunKeepsInv(cfg, s, run[..n]);
    var f := After(cfg, s, run[..n]);
    assert ClientOk(cfg, f, f.clients[k]);
    forall l, b | l in s'.clients
      ensures !Raised(s'.clients[l], b, c.request.householdId, f.steps)
    {
      assert ClientOk(cfg, s', s'.clients[l]);
      NotRaisedDuring(c, s'.clients[l], b, c.request.householdId, f.steps, s'.steps);
    }
  }

  // A call that does not overlap with c, which has just returned, raised nothing since
  // some moment during c.
  lemma NotRaisedDuring(c: Client, d: Client, b: Id, householdId: Id, at: nat, steps: nat)
    requires c.pc.Done? && c.called < at && c.pc.returned + 1 == steps && d.called < steps
    requires Raised(d, b, householdId, 0) ==> Precedes(d, c) || Precedes(c, d)
    ensures !Raised(d, b, householdId, at)
  {
  }

  // Executed as one step, pickup.Create keeps rule 1 exactly.
  lemma Rule1WhenAtomic(cfg: Config, t: Tables, r: Request, now: Time, id: Id)
    requires TablesOk(cfg.pricing, t) && r.CreatePickup? && id !in t.pickups
    ensures var o := Atomically(cfg, t, r, now, id);
      && (o.result.GotPickup? <==> !HasPending(t, r.householdId) && r.householdId in t.households)
      && (o.result.GotPickup? ==> !HasPending(o.tables, r.householdId))
      && (HasPending(t, r.householdId) ==> o == Outcome(t, Failed(HouseholdHasPendingPayment)))
  {
  }
}
