// Each statement that writes keeps the tables well formed and only moves them forward.
module TableFacts {
  import opened Domain
  import opened Tables

  lemma AdvancesReflexive(t: Tables)
    ensures Advances(t, t)
  {
  }

  lemma AdvancesTransitive(t: Tables, u: Tables, v: Tables)
    requires Advances(t, u) && Advances(u, v)
    ensures Advances(t, v)
  {
    forall h | h in t.households && h !in v.households
      ensures !HasDependents(t, h)
    {
      DependentsPersist(t, u, h);
    }
  }

  lemma DependentsPersist(t: Tables, u: Tables, h: Id)
    requires Advances(t, u)
    ensures HasDependents(t, h) ==> HasDependents(u, h)
  {
    if HasDependents(t, h) {
      assert (exists i :: i in t.pickups && i in u.pickups && u.pickups[i].householdId == h)
          || (exists b :: b in t.payments && b in u.payments && u.payments[b].householdId == h);
    }
  }

  // A write that leaves every completed pickup as it was keeps them billed.
  lemma StillBilled(t: Tables, u: Tables)
    requires CompletedAreBilled(t) && Advances(t, u)
    requires forall i :: i in u.pickups && u.pickups[i].status == PickupCompleted ==>
      i in t.pickups && u.pickups[i] == t.pickups[i]
    ensures CompletedAreBilled(u)
  {
    forall i | i in u.pickups && u.pickups[i].status == PickupCompleted
      ensures exists b :: CompletionBill(u, i, b)
    {
      var b :| CompletionBill(t, i, b);
      assert CompletionBill(u, i, b);
    }
  }

  // A write to pickups alone keeps the rest in order.
  lemma PickupsMoved(pricing: Pricing, t: Tables, u: Tables)
    requires TablesOk(pricing, t) && Advances(t, u) && u.payments == t.payments && u.households == t.households
    requires forall i :: i in u.pickups ==>
      && u.pickups[i].id == i && u.pickups[i].householdId in t.households && LifecycleOk(u.pickups[i])
      && (u.pickups[i].status == PickupCompleted ==> i in t.pickups && u.pickups[i] == t.pickups[i])
    ensures TablesOk(pricing, u)
  {
    StillBilled(t, u);
  }

  lemma InsertPickupKeeps(pricing: Pricing, t: Tables, p: Pickup)
    requires TablesOk(pricing, t) && InsertPickupError(t, p) == None && p.status == PickupPending
    ensures TablesOk(pricing, PutPickup(t, p)) && Advances(t, PutPickup(t, p))
  {
    PickupsMoved(pricing, t, PutPickup(t, p));
  }

  // Schedule and Cancel: an open row moves forward without being completed.
  lemma UpdatePickupKeeps(pricing: Pricing, t: Tables, p: Pickup)
    requires TablesOk(pricing, t) && p.id in t.pickups && Open(t.pickups[p.id])
    requires PickupAdvances(t.pickups[p.id], p) && LifecycleOk(p) && p.status != PickupCompleted
    ensures TablesOk(pricing, PutPickup(t, p)) && Advances(t, PutPickup(t, p))
  {
    PickupsMoved(pricing, t, PutPickup(t, p));
  }

  lemma SweepKeeps(pricing: Pricing, t: Tables, cutoff: Time, now: Time)
    requires TablesOk(pricing, t)
    ensures TablesOk(pricing, SweepTables(t, cutoff, now)) && Advances(t, SweepTables(t, cutoff, now))
  {
    PickupsMoved(pricing, t, SweepTables(t, cutoff, now));
  }

  lemma InsertPaymentKeeps(pricing: Pricing, t: Tables, b: Payment)
    requires TablesOk(pricing, t) && InsertPaymentError(t, b) == None && BillOk(pricing, t, b)
    ensures TablesOk(pricing, PutPayment(t, b)) && Advances(t, PutPayment(t, b))
  {
    StillBilled(t, PutPayment(t, b));
  }

  lemma ConfirmPaymentKeeps(pricing: Pricing, t: Tables, id: Id, url: ObjectKey, now: Time)
    requires TablesOk(pricing, t) && id in t.payments && t.payments[id].status == PaymentPending && url.paymentId == id
    ensures var row := ConfirmRow(t.payments[id], url, now).value;
      TablesOk(pricing, PutPayment(t, row)) && Advances(t, PutPayment(t, row))
  {
    StillBilled(t, PutPayment(t, ConfirmRow(t.payments[id], url, now).value));
  }

  // The two writes of a completion together keep what the first alone would break.
  lemma CompletePickupKeeps(pricing: Pricing, t: Tables, p: Pickup, now: Time, b: Payment)
    requires TablesOk(pricing, t) && p.id in t.pickups && CompleteRow(t.pickups[p.id], now) == Some(p)
    requires b == NewPayment(pricing, b.id, p.householdId, p.id, p.kind, now)
    requires InsertPaymentError(PutPickup(t, p), b) == None
    ensures TablesOk(pricing, PutPayment(PutPickup(t, p), b)) && Advances(t, PutPayment(PutPickup(t, p), b))
  {
    CompletionIsBilled(t, p, now, b);
    CompletionBillsOk(pricing, t, p, now, b);
  }

  lemma CompletionBillsOk(pricing: Pricing, t: Tables, p: Pickup, now: Time, b: Payment)
    requires TablesOk(pricing, t) && p.id in t.pickups && CompleteRow(t.pickups[p.id], now) == Some(p)
    requires b == NewPayment(pricing, b.id, p.householdId, p.id, p.kind, now)
    requires InsertPaymentError(PutPickup(t, p), b) == None
    ensures var u := PutPayment(PutPickup(t, p), b);
      UniqueWaste(u) && forall c :: c in u.payments ==> BillOk(pricing, u, u.payments[c])
  {
    assert forall c :: c in t.payments ==> t.payments[c].wasteId != p.id;
  }

  lemma CompletionIsBilled(t: Tables, p: Pickup, now: Time, b: Payment)
    requires CompletedAreBilled(t) && Keyed(t) && p.id in t.pickups && CompleteRow(t.pickups[p.id], now) == Some(p)
    requires b.wasteId == p.id && b.createdAt == now && b.id !in t.payments
    ensures CompletedAreBilled(PutPayment(PutPickup(t, p), b))
  {
    var u := PutPayment(PutPickup(t, p), b);
    assert CompletionBill(u, p.id, b.id);
    forall i | i in u.pickups && u.pickups[i].status == PickupCompleted
      ensures exists c :: CompletionBill(u, i, c)
    {
      if i != p.id {
        var c :| CompletionBill(t, i, c);
        assert CompletionBill(u, i, c);
      }
    }
  }

  lemma InsertHouseholdKeeps(pricing: Pricing, t: Tables, h: Household)
    requires TablesOk(pricing, t) && InsertHouseholdError(t, h) == None
    ensures TablesOk(pricing, PutHousehold(t, h)) && Advances(t, PutHousehold(t, h))
  {
    StillBilled(t, PutHousehold(t, h));
  }

  lemma DeleteHouseholdKeeps(pricing: Pricing, t: Tables, id: Id)
    requires TablesOk(pricing, t) && DeleteHouseholdError(t, id) == None
    ensures TablesOk(pricing, DropHousehold(t, id)) && Advances(t, DropHousehold(t, id))
  {
    StillBilled(t, DropHousehold(t, id));
  }

  // The WHERE guard of the UPDATE and the rule in the domain package are the same rule.
  lemma GuardIsRule(p: Pickup, date: Time, now: Time)
    ensures ScheduleRow(p, date, now).None? <==> CanSchedule(p).Some?
  {
  }
}
