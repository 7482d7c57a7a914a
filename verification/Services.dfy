// The service methods on top of the repositories, each proved to do, when nothing
// runs beside it, exactly what its one-step specification says.
module Services {
  import opened Domain
  import opened Tables
  import opened Atomic
  import opened Repositories

  class Services {
    const store: Database
    const storage: FileStorage
    const cfg: Config

    constructor (store: Database, storage: FileStorage, cfg: Config)
      ensures this.store == store && this.storage == storage && this.cfg == cfg
    {
      this.store, this.storage, this.cfg := store, storage, cfg;
    }

    method CreatePickup(householdId: Id, kind: PickupType, safetyCheck: bool, now: Time, id: Id) returns (r: Result)
      requires store.savepoint.None?
      modifies store
      ensures store.savepoint.None?
      ensures Outcome(store.View(), r) ==
        Atomically(cfg, old(store.View()), Request.CreatePickup(householdId, kind, safetyCheck), now, id)
    {
      var pickup := NewPickup(id, householdId, kind, safetyCheck, now);
      store.Begin();
      var pending := store.HasPendingByHousehold(householdId);
      if pending {
        store.Rollback();
        return Failed(HouseholdHasPendingPayment);
      }
      var error := store.InsertPickup(pickup);
      if error.Some? {
        store.Rollback();
        return Failed(error.value);
      }
      store.Commit();
      r := GotPickup(pickup);
    }

    method Schedule(id: Id, pickupDate: Time, now: Time) returns (r: Result)
      requires Keyed(store.View())
      modifies store
      ensures Outcome(store.View(), r) == Atomically(cfg, old(store.View()), Request.Schedule(id, pickupDate), now, 0)
    {
      var row := store.SchedulePickup(id, pickupDate, now);
      if row.None? {
        var current := store.FindPickup(id);
        if current.None? {
          return Failed(PickupNotFound);
        }
        var error := CanSchedule(current.value);
        if error.Some? {
          return Failed(error.value);
        }
        return Failed(PickupNotPending);
      }
      r := GotPickup(row.value);
    }

    method Complete(id: Id, now: Time, billId: Id) returns (r: Result)
      requires Keyed(store.View()) && store.savepoint.None?
      modifies store
      ensures store.savepoint.None?
      ensures Outcome(store.View(), r) == Atomically(cfg, old(store.View()), Request.Complete(id), now, billId)
    {
      store.Begin();
      var row := store.CompletePickup(id, now);
      if row.None? {
        var current := store.FindPickup(id);
        store.Rollback();
        return if current.None? then Failed(PickupNotFound) else Failed(PickupNotScheduled);
      }
      var pickup := row.value;
      var error := store.InsertPayment(
        NewPayment(cfg.pricing, billId, pickup.householdId, pickup.id, pickup.kind, now));
      if error.Some? {
        store.Rollback();
        return Failed(error.value);
      }
      store.Commit();
      r := GotPickup(pickup);
    }

    method Cancel(id: Id, now: Time) returns (r: Result)
      requires Keyed(store.View())
      modifies store
      ensures Outcome(store.View(), r) == Atomically(cfg, old(store.View()), Request.Cancel(id), now, 0)
    {
      var row := store.CancelPickup(id, now);
      if row.None? {
        var current := store.FindPickup(id);
        return if current.None? then Failed(PickupNotFound) else Failed(PickupNotCancelable);
      }
      r := GotPickup(row.value);
    }

    method CancelStaleOrganic(now: Time) returns (r: Result)
      requires Keyed(store.View())
      modifies store
      ensures Outcome(store.View(), r) == Atomically(cfg, old(store.View()), Request.CancelStaleOrganic, now, 0)
    {
      var cutoff := now - cfg.organicTTL;
      var affected := store.CancelStaleOrganic(cutoff, now);
      r := Swept(affected);
    }

    method CreatePayment(householdId: Id, wasteId: Id, now: Time, id: Id) returns (r: Result)
      modifies store
      ensures Outcome(store.View(), r) ==
        Atomically(cfg, old(store.View()), Request.CreatePayment(householdId, wasteId), now, id)
    {
      var pickup := store.FindPickup(wasteId);
      if pickup.None? {
        return Failed(PickupNotFound);
      }
      if pickup.value.householdId != householdId {
        return Failed(PaymentHouseholdMismatch);
      }
      var payment := NewPayment(cfg.pricing, id, householdId, wasteId, pickup.value.kind, now);
      var error := store.InsertPayment(payment);
      if error.Some? {
        return Failed(error.value);
      }
      r := GotPayment(payment);
    }

    // The proof is stored before the guarded update, so a call that fails at or before
    // the upload leaves no object and one that gets past it leaves exactly its own.
    method Confirm(id: Id, contentType: string, now: Time, suffix: Id, available: bool) returns (r: Result)
      requires Keyed(store.View()) && store as object != storage as object
      modifies store, storage
      ensures var t := old(store.View());
        var uploads := id in t.payments && t.payments[id].status == PaymentPending && available;
        && storage.objects ==
          (if uploads then old(storage.objects) + {ObjectKey(id, suffix, ExtensionFor(contentType))}
           else old(storage.objects))
        && (if id in t.payments && t.payments[id].status == PaymentPending && !available
            then store.View() == t && r == Failed(StorageUnavailable)
            else Outcome(store.View(), r) == Atomically(cfg, t, Request.Confirm(id, contentType), now, suffix))
    {
      var existing := store.FindPayment(id);
      if existing.None? {
        return Failed(PaymentNotFound);
      }
      if existing.value.status != PaymentPending {
        return Failed(PaymentNotPending);
      }
      var key := ObjectKey(id, suffix, ExtensionFor(contentType));
      var url := storage.Put(key, available);
      if url.None? {
        return Failed(StorageUnavailable);
      }
      var paid := store.ConfirmPayment(id, url.value, now);
      if paid.None? {
        return Failed(PaymentNotPending);
      }
      r := GotPayment(paid.value);
    }

    method CreateHousehold(ownerName: string, address: string, now: Time, id: Id) returns (r: Result)
      modifies store
      ensures Outcome(store.View(), r) ==
        Atomically(cfg, old(store.View()), Request.CreateHousehold(ownerName, address), now, id)
    {
      var h := Household(id, ownerName, address, now, now);
      var error := store.InsertHousehold(h);
      if error.Some? {
        return Failed(error.value);
      }
      r := GotHousehold(h);
    }

    method DeleteHousehold(id: Id) returns (r: Result)
      modifies store
      ensures Outcome(store.View(), r) == Atomically(cfg, old(store.View()), Request.DeleteHousehold(id), 0, 0)
    {
      var error := store.DeleteHousehold(id);
      if error.Some? {
        return Failed(error.value);
      }
      r := Deleted;
    }
  }
}
