// What every operation answers and what it leaves behind, written out on the fields of
// the rows: a decision table for each, with the checks in the order the service makes them.
module Answers {
  import opened Domain
  import opened Tables
  import opened Atomic
  import opened System
  import opened Invariants

  // ---------------------------------------------------------------- pickups

  lemma CreatePickupAnswers(cfg: Config, t: Tables, householdId: Id, kind: PickupType, safetyCheck: bool,
                            now: Time, id: Id)
    ensures var o := Atomically(cfg, t, CreatePickup(householdId, kind, safetyCheck), now, id);
      if exists b ::
        b in t.payments && t.payments[b].householdId == householdId && t.payments[b].status == PaymentPending
      then o == Outcome(t, Failed(HouseholdHasPendingPayment))
      else if id in t.pickups then o == Outcome(t, Failed(InternalError))
      else if householdId !in t.households then o == Outcome(t, Failed(HouseholdNotFound))
      else
        var row := Pickup(id, householdId, kind, PickupPending, None, safetyCheck, now, now);
        o == Outcome(Tables(t.households, t.pickups[id := row], t.payments), GotPickup(row))
  {
  }

  lemma ScheduleAnswers(cfg: Config, t: Tables, id: Id, date: Time, now: Time, unused: Id)
    requires Keyed(t)
    ensures var o := Atomically(cfg, t, Schedule(id, date), now, unused);
      if id !in t.pickups then o == Outcome(t, Failed(PickupNotFound))
      else if t.pickups[id].status != PickupPending then o == Outcome(t, Failed(PickupNotPending))
      else if t.pickups[id].kind == Electronic && !t.pickups[id].safetyCheck
      then o == Outcome(t, Failed(SafetyCheckRequired))
      else
        var row := t.pickups[id].(status := PickupScheduled, pickupDate := Some(date), updatedAt := now);
        o == Outcome(Tables(t.households, t.pickups[id := row], t.payments), GotPickup(row))
  {
  }

  ghost predicate Billed(t: Tables, wasteId: Id) {
    exists b :: b in t.payments && t.payments[b].wasteId == wasteId
  }

  lemma CompleteAnswers(cfg: Config, t: Tables, id: Id, now: Time, billId: Id)
    requires Keyed(t)
    ensures var o := Atomically(cfg, t, Complete(id), now, billId);
      if id !in t.pickups then o == Outcome(t, Failed(PickupNotFound))
      else if t.pickups[id].status != PickupScheduled then o == Outcome(t, Failed(PickupNotScheduled))
      else
        var price := if t.pickups[id].kind == Electronic then cfg.pricing.electronic else cfg.pricing.standard;
        if !(-100_000_000_000_000 < price < 100_000_000_000_000) then o == Outcome(t, Failed(InternalError))
        else if billId in t.payments || Billed(t, id) then o == Outcome(t, Failed(PaymentAlreadyExists))
        else
          var row := t.pickups[id].(status := PickupCompleted, updatedAt := now);
          var bill := Payment(billId, row.householdId, id, price, None, PaymentPending, None, now, now);
          o == Outcome(Tables(t.households, t.pickups[id := row], t.payments[billId := bill]), GotPickup(row))
  {
  }

  lemma CancelAnswers(cfg: Config, t: Tables, id: Id, now: Time, unused: Id)
    requires Keyed(t)
    ensures var o := Atomically(cfg, t, Cancel(id), now, unused);
      if id !in t.pickups then o == Outcome(t, Failed(PickupNotFound))
      else if t.pickups[id].status != PickupPending && t.pickups[id].status != PickupScheduled
      then o == Outcome(t, Failed(PickupNotCancelable))
      else
        var row := t.pickups[id].(status := PickupCanceled, updatedAt := now);
        o == Outcome(Tables(t.households, t.pickups[id := row], t.payments), GotPickup(row))
  {
  }

  // The rows a sweep at `now` is after.
  ghost function Overdue(cfg: Config, t: Tables, now: Time): set<Id> {
    set i | i in t.pickups && t.pickups[i].kind == Organic
      && (t.pickups[i].status == PickupPending || t.pickups[i].status == PickupScheduled)
      && t.pickups[i].createdAt < now - cfg.organicTTL
  }

  lemma SweepAnswers(cfg: Config, t: Tables, now: Time, unused: Id)
    ensures var o := Atomically(cfg, t, CancelStaleOrganic, now, unused);
      && o.result == Swept(|Overdue(cfg, t, now)|)
      && o.tables.households == t.households && o.tables.payments == t.payments
      && o.tables.pickups.Keys == t.pickups.Keys
      && forall i :: i in t.pickups ==>
           o.tables.pickups[i] ==
             if i in Overdue(cfg, t, now)
             then t.pickups[i].(status := PickupCanceled, updatedAt := now)
             else t.pickups[i]
  {
    assert StaleIds(t, now - cfg.organicTTL) == Overdue(cfg, t, now);
  }

  // ---------------------------------------------------------------- payments

  lemma CreatePaymentAnswers(cfg: Config, t: Tables, householdId: Id, wasteId: Id, now: Time, id: Id)
    requires Keyed(t)
    ensures var o := Atomically(cfg, t, CreatePayment(householdId, wasteId), now, id);
      if wasteId !in t.pickups then o == Outcome(t, Failed(PickupNotFound))
      else if t.pickups[wasteId].householdId != householdId then o == Outcome(t, Failed(PaymentHouseholdMismatch))
      else
        var price := if t.pickups[wasteId].kind == Electronic then cfg.pricing.electronic else cfg.pricing.standard;
        if !(-100_000_000_000_000 < price < 100_000_000_000_000) then o == Outcome(t, Failed(InternalError))
        else if id in t.payments || Billed(t, wasteId) then o == Outcome(t, Failed(PaymentAlreadyExists))
        else
          var bill := Payment(id, householdId, wasteId, price, None, PaymentPending, None, now, now);
          o == Outcome(Tables(t.households, t.pickups, t.payments[id := bill]), GotPayment(bill))
  {
  }

  ghost predicate ProofExtension(contentType: string, extension: string) {
    || (contentType == "image/jpeg" && extension == ".jpg")
    || (contentType == "image/png" && extension == ".png")
    || (contentType == "application/pdf" && extension == ".pdf")
    || (contentType !in {"image/jpeg", "image/png", "application/pdf"} && extension == "")
  }

  lemma ConfirmAnswers(cfg: Config, t: Tables, id: Id, contentType: string, extension: string, now: Time, suffix: Id)
    requires Keyed(t) && ProofExtension(contentType, extension)
    ensures var o := Atomically(cfg, t, Confirm(id, contentType), now, suffix);
      if id !in t.payments then o == Outcome(t, Failed(PaymentNotFound))
      else if t.payments[id].status != PaymentPending then o == Outcome(t, Failed(PaymentNotPending))
      else
        var row := t.payments[id].(
          status := PaymentPaid, proofFileURL := Some(ObjectKey(id, suffix, extension)),
          paymentDate := Some(now), updatedAt := now);
        o == Outcome(Tables(t.households, t.pickups, t.payments[id := row]), GotPayment(row))
  {
  }

  // ---------------------------------------------------------------- households

  lemma CreateHouseholdAnswers(cfg: Config, t: Tables, ownerName: string, address: string, now: Time, id: Id)
    ensures var o := Atomically(cfg, t, CreateHousehold(ownerName, address), now, id);
      if id in t.households then o == Outcome(t, Failed(InternalError))
      else
        var row := Household(id, ownerName, address, now, now);
        o == Outcome(Tables(t.households[id := row], t.pickups, t.payments), GotHousehold(row))
  {
  }

  lemma DeleteHouseholdAnswers(cfg: Config, t: Tables, id: Id, now: Time, unused: Id)
    ensures var o := Atomically(cfg, t, DeleteHousehold(id), now, unused);
      if id !in t.households then o == Outcome(t, Failed(HouseholdNotFound))
      else if (exists i :: i in t.pickups && t.pickups[i].householdId == id)
           || (exists b :: b in t.payments && t.payments[b].householdId == id)
      then o == Outcome(t, Failed(HouseholdHasDependents))
      else o == Outcome(Tables(t.households - {id}, t.pickups, t.payments), Deleted)
  {
  }

  // ---------------------------------------------------------------- single steps

  // A completion that has won its guard ends well unless its price is too large for the
  // column or the pickup has a payment; the commit cannot fail but for infrastructure.
  lemma CompletionGoesThrough(cfg: Config, s: System, k: ClientId, draw: Id)
    requires Reachable(cfg, s) && Enabled(cfg, s, Go(k, draw, None)) && s.clients[k].request.Complete?
    ensures var t, c, c' := s.tables, s.clients[k], Next(cfg, s, Go(k, draw, None)).clients[k];
      && (c.pc.InsertBill? || c.pc.CommitBill? ==>
            && c.request.id in t.pickups && t.pickups[c.request.id].status == PickupScheduled
            && c.pc.row == t.pickups[c.request.id].(status := PickupCompleted, updatedAt := c.now))
      && (c.pc.InsertBill? ==>
            var price := if c.pc.row.kind == Electronic then cfg.pricing.electronic else cfg.pricing.standard;
            c'.pc ==
              if !(-100_000_000_000_000 < price < 100_000_000_000_000) then Done(Failed(InternalError), s.steps)
              else if Billed(t, c.request.id) then Done(Failed(PaymentAlreadyExists), s.steps)
              else CommitBill(c.pc.row))
      && (c.pc.CommitBill? ==> c'.pc == Done(GotPickup(c.pc.row), s.steps))
  {
    ReachableInv(cfg, s);
    assert ClientOk(cfg, s, s.clients[k]);
  }

  lemma ManualBillGoesThrough(cfg: Config, s: System, k: ClientId, draw: Id)
    requires Reachable(cfg, s) && Enabled(cfg, s, Go(k, draw, None)) && s.clients[k].pc.InsertManualBill?
    ensures var t, c, c' := s.tables, s.clients[k], Next(cfg, s, Go(k, draw, None)).clients[k];
      && c.request.CreatePayment? && c.request.wasteId in t.pickups
      && var price :=
           if t.pickups[c.request.wasteId].kind == Electronic then cfg.pricing.electronic else cfg.pricing.standard;
         c'.pc ==
           if !(-100_000_000_000_000 < price < 100_000_000_000_000) then Done(Failed(InternalError), s.steps)
           else if Billed(t, c.request.wasteId) then Done(Failed(PaymentAlreadyExists), s.steps)
           else Done(GotPayment(Payment(c.id, c.request.householdId, c.request.wasteId, price,
                                        None, PaymentPending, None, c.now, c.now)), s.steps)
  {
    ReachableInv(cfg, s);
    assert ClientOk(cfg, s, s.clients[k]);
  }

  // When a call reads its timestamp: first of all, but just before the insert when a
  // payment is created, and after the upload when one is confirmed.
  lemma StepReadsClock(cfg: Config, s: System, c: Client, draw: Id, fault: Option<Error>)
    requires ShapeOk(c) && fault.None?
    ensures Step(cfg, s, c, draw, fault).client.now ==
      if || (c.pc.Called? && (c.request.CreatePickup? || c.request.Schedule? || c.request.Complete?
                              || c.request.Cancel? || c.request.CancelStaleOrganic? || c.request.CreateHousehold?))
         || c.pc.PriceBill? || c.pc.StampProof?
      then s.clock else c.now
  {
  }

  // A step that meets a failure ends its call there and changes nothing; reading the
  // clock and drawing a UUID meet none.
  lemma StepFails(cfg: Config, s: System, c: Client, draw: Id, fault: Error)
    ensures var m := Step(cfg, s, c, draw, Some(fault));
      if || (c.pc.Called? && (c.request.Schedule? || c.request.Cancel? || c.request.CancelStaleOrganic?
                              || c.request.CreateHousehold?))
         || c.pc.PriceBill? || c.pc.StampProof?
      then m == Step(cfg, s, c, draw, None)
      else
        && m.tables == s.tables && m.objects == s.objects
        && m.client.pc == Done(Failed(if c.pc.UploadProof? then StorageUnavailable else fault), s.steps)
  {
  }
}
