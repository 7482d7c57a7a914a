// The one-step specification of every service call: what it returns and leaves
// behind when nothing else runs, given the timestamp it reads and the UUID it draws.
module Atomic {
  import opened Domain
  import opened Tables

  datatype Request =
    | CreatePickup(householdId: Id, kind: PickupType, safetyCheck: bool)
    | Schedule(id: Id, pickupDate: Time)
    | Complete(id: Id)
    | Cancel(id: Id)
    | CancelStaleOrganic
    | CreatePayment(householdId: Id, wasteId: Id)
    | Confirm(id: Id, contentType: string)
    | CreateHousehold(ownerName: string, address: string)
    | DeleteHousehold(id: Id)

  datatype Result =
    | Failed(error: Error)
    | GotPickup(pickup: Pickup)
    | GotPayment(payment: Payment)
    | GotHousehold(household: Household)
    | Swept(count: nat)
    | Deleted

  datatype Outcome = Outcome(tables: Tables, result: Result)

  function CreatePickupSpec(t: Tables, r: Request, now: Time, id: Id): Outcome
    requires r.CreatePickup?
  {
    var row := NewPickup(id, r.householdId, r.kind, r.safetyCheck, now);
    if HasPending(t, r.householdId) then Outcome(t, Failed(HouseholdHasPendingPayment))
    else match InsertPickupError(t, row)
      case Some(e) => Outcome(t, Failed(e))
      case None => Outcome(PutPickup(t, row), GotPickup(row))
  }

  function ScheduleSpec(t: Tables, id: Id, date: Time, now: Time): Outcome {
    if id !in t.pickups then Outcome(t, Failed(PickupNotFound))
    else match CanSchedule(t.pickups[id])
      case Some(e) => Outcome(t, Failed(e))
      case None =>
        var row := t.pickups[id].(status := PickupScheduled, pickupDate := Some(date), updatedAt := now);
        Outcome(PutPickup(t, row), GotPickup(row))
  }

  // Flipping the status and raising the bill happen together or not at all.
  function CompleteSpec(cfg: Config, t: Tables, id: Id, now: Time, billId: Id): Outcome {
    if id !in t.pickups then Outcome(t, Failed(PickupNotFound))
    else match CompleteRow(t.pickups[id], now)
      case None => Outcome(t, Failed(PickupNotScheduled))
      case Some(row) =>
        var bill := NewPayment(cfg.pricing, billId, row.householdId, row.id, row.kind, now);
        match InsertPaymentError(PutPickup(t, row), bill)
        case Some(e) => Outcome(t, Failed(e))
        case None => Outcome(PutPayment(PutPickup(t, row), bill), GotPickup(row))
  }

  function CancelSpec(t: Tables, id: Id, now: Time): Outcome {
    if id !in t.pickups then Outcome(t, Failed(PickupNotFound))
    else match CancelRow(t.pickups[id], now)
      case None => Outcome(t, Failed(PickupNotCancelable))
      case Some(row) => Outcome(PutPickup(t, row), GotPickup(row))
  }

  function SweepSpec(cfg: Config, t: Tables, now: Time): Outcome {
    var cutoff := now - cfg.organicTTL;
    Outcome(SweepTables(t, cutoff, now), Swept(|StaleIds(t, cutoff)|))
  }

  function CreatePaymentSpec(cfg: Config, t: Tables, r: Request, now: Time, id: Id): Outcome
    requires r.CreatePayment?
  {
    if r.wasteId !in t.pickups then Outcome(t, Failed(PickupNotFound))
    else if t.pickups[r.wasteId].householdId != r.householdId then Outcome(t, Failed(PaymentHouseholdMismatch))
    else
      var bill := NewPayment(cfg.pricing, id, r.householdId, r.wasteId, t.pickups[r.wasteId].kind, now);
      match InsertPaymentError(t, bill)
      case Some(e) => Outcome(t, Failed(e))
      case None => Outcome(PutPayment(t, bill), GotPayment(bill))
  }

  function ConfirmSpec(t: Tables, r: Request, now: Time, suffix: Id): Outcome
    requires r.Confirm?
  {
    if r.id !in t.payments then Outcome(t, Failed(PaymentNotFound))
    else match ConfirmRow(t.payments[r.id], ObjectKey(r.id, suffix, ExtensionFor(r.contentType)), now)
      case None => Outcome(t, Failed(PaymentNotPending))
      case Some(row) => Outcome(PutPayment(t, row), GotPayment(row))
  }

  function CreateHouseholdSpec(t: Tables, r: Request, now: Time, id: Id): Outcome
    requires r.CreateHousehold?
  {
    var row := Household(id, r.ownerName, r.address, now, now);
    match InsertHouseholdError(t, row)
    case Some(e) => Outcome(t, Failed(e))
    case None => Outcome(PutHousehold(t, row), GotHousehold(row))
  }

  function DeleteHouseholdSpec(t: Tables, id: Id): Outcome {
    match DeleteHouseholdError(t, id)
    case Some(e) => Outcome(t, Failed(e))
    case None => Outcome(DropHousehold(t, id), Deleted)
  }

  function Atomically(cfg: Config, t: Tables, r: Request, now: Time, id: Id): Outcome {
    match r
    case CreatePickup(_, _, _) => CreatePickupSpec(t, r, now, id)
    case Schedule(pid, date) => ScheduleSpec(t, pid, date, now)
    case Complete(pid) => CompleteSpec(cfg, t, pid, now, id)
    case Cancel(pid) => CancelSpec(t, pid, now)
    case CancelStaleOrganic => SweepSpec(cfg, t, now)
    case CreatePayment(_, _) => CreatePaymentSpec(cfg, t, r, now, id)
    case Confirm(_, _) => ConfirmSpec(t, r, now, id)
    case CreateHousehold(_, _) => CreateHouseholdSpec(t, r, now, id)
    case DeleteHousehold(hid) => DeleteHouseholdSpec(t, hid)
  }
}
