// The adapters as objects: tables that repository methods change in place, and the
// storage bucket. Each method is proved against the statement it stands for.
module Repositories {
  import opened Domain
  import opened Tables
  import opened SweepOrder

  class Database {
    // What the executor of the current context sees.
    var households: map<Id, Household>
    var pickups: map<Id, Pickup>
    var payments: map<Id, Payment>
    // While a transaction is open: the tables a rollback returns to.
    var savepoint: Option<Tables>

    constructor ()
      ensures View() == Tables(map[], map[], map[]) && savepoint == None
    {
      households, pickups, payments := map[], map[], map[];
      savepoint := None;
    }

    function View(): Tables
      reads this
    {
      Tables(households, pickups, payments)
    }

    // ------------------------------------------------------------ transactions

    method Begin()
      modifies this
      ensures View() == old(View()) && savepoint == Some(old(View()))
    {
      savepoint := Some(View());
    }

    method Commit()
      modifies this
      ensures View() == old(View()) && savepoint == None
    {
      savepoint := None;
    }

    method Rollback()
      requires savepoint.Some?
      modifies this
      ensures View() == old(savepoint).value && savepoint == None
    {
      var t := savepoint.value;
      households, pickups, payments := t.households, t.pickups, t.payments;
      savepoint := None;
    }

    // ------------------------------------------------------------ pickups

    method InsertPickup(p: Pickup) returns (error: Option<Error>)
      modifies this
      ensures savepoint == old(savepoint)
      ensures error == InsertPickupError(old(View()), p)
      ensures View() == if error.Some? then old(View()) else PutPickup(old(View()), p)
    {
      if p.id in pickups {
        return Some(InternalError);
      }
      if p.householdId !in households {
        return Some(HouseholdNotFound);
      }
      pickups := pickups[p.id := p];
      error := None;
    }

    method FindPickup(id: Id) returns (row: Option<Pickup>)
      ensures row == if id in pickups then Some(pickups[id]) else None
    {
      row := None;
      if id in pickups {
        row := Some(pickups[id]);
      }
    }

    method SchedulePickup(id: Id, date: Time, now: Time) returns (row: Option<Pickup>)
      requires Keyed(View())
      modifies this
      ensures savepoint == old(savepoint)
      ensures row == if id in old(pickups) then ScheduleRow(old(pickups)[id], date, now) else None
      ensures View() == if row.Some? then PutPickup(old(View()), row.value) else old(View())
    {
      row := None;
      if id in pickups {
        var p := pickups[id];
        if p.status == PickupPending && !(p.kind == Electronic && !p.safetyCheck) {
          pickups := pickups[id := p.(status := PickupScheduled, pickupDate := Some(date), updatedAt := now)];
          row := Some(pickups[id]);
        }
      }
    }

    method CompletePickup(id: Id, now: Time) returns (row: Option<Pickup>)
      requires Keyed(View())
      modifies this
      ensures savepoint == old(savepoint)
      ensures row == if id in old(pickups) then CompleteRow(old(pickups)[id], now) else None
      ensures View() == if row.Some? then PutPickup(old(View()), row.value) else old(View())
    {
      row := None;
      if id in pickups {
        var p := pickups[id];
        if p.status == PickupScheduled {
          pickups := pickups[id := p.(status := PickupCompleted, updatedAt := now)];
          row := Some(pickups[id]);
        }
      }
    }

    method CancelPickup(id: Id, now: Time) returns (row: Option<Pickup>)
      requires Keyed(View())
      modifies this
      ensures savepoint == old(savepoint)
      ensures row == if id in old(pickups) then CancelRow(old(pickups)[id], now) else None
      ensures View() == if row.Some? then PutPickup(old(View()), row.value) else old(View())
    {
      row := None;
      if id in pickups {
        var p := pickups[id];
        if p.status == PickupPending || p.status == PickupScheduled {
          pickups := pickups[id := p.(status := PickupCanceled, updatedAt := now)];
          row := Some(pickups[id]);
        }
      }
    }

    // The bulk UPDATE visits the rows in whatever order the database likes.
    method CancelStaleOrganic(cutoff: Time, now: Time) returns (affected: nat)
      requires Keyed(View())
      modifies this
      ensures savepoint == old(savepoint)
      ensures affected == |StaleIds(old(View()), cutoff)|
      ensures View() == SweepTables(old(View()), cutoff, now)
    {
      affected := 0;
      ghost var t := View();
      var rest := pickups.Keys;
      SweepStarts(t, cutoff, now);
      while rest != {}
        invariant savepoint == old(savepoint)
        invariant rest <= t.pickups.Keys
        invariant SweptBut(t, View(), cutoff, now, rest, affected)
        decreases rest
      {
        var i :| i in rest;
        SweepOne(t, View(), cutoff, now, rest, affected, i);
        var p := pickups[i];
        if p.kind == Organic && (p.status == PickupPending || p.status == PickupScheduled) && p.createdAt < cutoff {
          pickups := pickups[i := p.(status := PickupCanceled, updatedAt := now)];
          affected := affected + 1;
        }
        rest := rest - {i};
      }
      SweepEnds(t, View(), cutoff, now, affected);
    }

    // ------------------------------------------------------------ payments

    method HasPendingByHousehold(householdId: Id) returns (pending: bool)
      ensures pending == HasPending(View(), householdId)
    {
      pending := false;
      var rest := payments.Keys;
      while rest != {}
        invariant rest <= payments.Keys
        invariant pending <==> exists b :: b in payments && b !in rest && PendingFor(payments[b], householdId)
        decreases rest
      {
        var b :| b in rest;
        rest := rest - {b};
        pending := pending || PendingFor(payments[b], householdId);
      }
    }

    method InsertPayment(b: Payment) returns (error: Option<Error>)
      modifies this
      ensures savepoint == old(savepoint)
      ensures error == InsertPaymentError(old(View()), b)
      ensures View() == if error.Some? then old(View()) else PutPayment(old(View()), b)
    {
      if !AmountFits(b.amount) {
        return Some(InternalError);
      }
      if b.id in payments || exists a :: a in payments && payments[a].wasteId == b.wasteId {
        return Some(PaymentAlreadyExists);
      }
      if b.householdId !in households || b.wasteId !in pickups {
        return Some(InternalError);
      }
      payments := payments[b.id := b];
      error := None;
    }

    method FindPayment(id: Id) returns (row: Option<Payment>)
      ensures row == if id in payments then Some(payments[id]) else None
    {
      row := None;
      if id in payments {
        row := Some(payments[id]);
      }
    }

    method ConfirmPayment(id: Id, url: ObjectKey, now: Time) returns (row: Option<Payment>)
      requires Keyed(View())
      modifies this
      ensures savepoint == old(savepoint)
      ensures row == if id in old(payments) then ConfirmRow(old(payments)[id], url, now) else None
      ensures View() == if row.Some? then PutPayment(old(View()), row.value) else old(View())
    {
      row := None;
      if id in payments {
        var b := payments[id];
        if b.status == PaymentPending {
          payments := payments[id :=
            b.(status := PaymentPaid, proofFileURL := Some(url), paymentDate := Some(now), updatedAt := now)];
          row := Some(payments[id]);
        }
      }
    }

    // ------------------------------------------------------------ households

    method InsertHousehold(h: Household) returns (error: Option<Error>)
      modifies this
      ensures savepoint == old(savepoint)
      ensures error == InsertHouseholdError(old(View()), h)
      ensures View() == if error.Some? then old(View()) else PutHousehold(old(View()), h)
    {
      if h.id in households {
        return Some(InternalError);
      }
      households := households[h.id := h];
      error := None;
    }

    method DeleteHousehold(id: Id) returns (error: Option<Error>)
      modifies this
      ensures savepoint == old(savepoint)
      ensures error == DeleteHouseholdError(old(View()), id)
      ensures View() == if error.Some? then old(View()) else DropHousehold(old(View()), id)
    {
      if id !in households {
        return Some(HouseholdNotFound);
      }
      if HasDependents(View(), id) {
        return Some(HouseholdHasDependents);
      }
      households := households - {id};
      error := None;
    }
  }

  class FileStorage {
    var objects: set<ObjectKey>

    constructor ()
      ensures objects == {}
    {
      objects := {};
    }

    // Stores the object and returns its URL, or fails and stores nothing.
    method Put(key: ObjectKey, available: bool) returns (url: Option<ObjectKey>)
      modifies this
      ensures url == if available then Some(key) else None
      ensures objects == if available then old(objects) + {key} else old(objects)
    {
      url := None;
      if available {
        objects := objects + {key};
        url := Some(key);
      }
    }
  }

  // ---------------------------------------------------------------- steps of the bulk update

  // The stale rows outside `rest` are canceled and counted, and nothing else is touched.
  ghost predicate SweptBut(t: Tables, u: Tables, cutoff: Time, now: Time, rest: set<Id>, count: int) {
    var done := StaleIds(t, cutoff) - rest;
    u == CanceledAmong(t, done, now) && count == |OpenAmong(t, done)|
  }

  lemma SweepStarts(t: Tables, cutoff: Time, now: Time)
    ensures SweptBut(t, t, cutoff, now, t.pickups.Keys, 0)
  {
    var done := StaleIds(t, cutoff) - t.pickups.Keys;
    assert done == {};
    assert CanceledAmong(t, done, now).pickups == t.pickups && OpenAmong(t, done) == {};
  }

  lemma SweepOne(t: Tables, u: Tables, cutoff: Time, now: Time, rest: set<Id>, count: int, i: Id)
    requires SweptBut(t, u, cutoff, now, rest, count) && i in rest && i in t.pickups
    ensures i in u.pickups && u.pickups[i] == t.pickups[i]
    ensures if Stale(t.pickups[i], cutoff)
      then
        var v := u.(pickups := u.pickups[i := CanceledRow(t.pickups[i], now)]);
        SweptBut(t, v, cutoff, now, rest - {i}, count + 1)
      else SweptBut(t, u, cutoff, now, rest - {i}, count)
  {
    var done := StaleIds(t, cutoff) - rest;
    if Stale(t.pickups[i], cutoff) {
      assert StaleIds(t, cutoff) - (rest - {i}) == done + {i};
      CancelAnother(t, done, i, now);
    } else {
      assert StaleIds(t, cutoff) - (rest - {i}) == done;
    }
  }

  lemma SweepEnds(t: Tables, u: Tables, cutoff: Time, now: Time, count: int)
    requires SweptBut(t, u, cutoff, now, {}, count)
    ensures u == SweepTables(t, cutoff, now) && count == |StaleIds(t, cutoff)|
  {
    var done := StaleIds(t, cutoff) - {};
    assert CanceledAmong(t, done, now).pickups == SweepTables(t, cutoff, now).pickups;
    assert OpenAmong(t, done) == StaleIds(t, cutoff);
  }

  lemma CancelAnother(t: Tables, done: set<Id>, i: Id, now: Time)
    requires i in t.pickups && Open(t.pickups[i]) && i !in done
    ensures var u := CanceledAmong(t, done, now);
      CanceledAmong(t, done + {i}, now) == u.(pickups := u.pickups[i := CanceledRow(t.pickups[i], now)])
    ensures |OpenAmong(t, done + {i})| == |OpenAmong(t, done)| + 1
  {
    var u := CanceledAmong(t, done, now);
    assert CanceledAmong(t, done + {i}, now).pickups == u.pickups[i := CanceledRow(t.pickups[i], now)];
    assert OpenAmong(t, done + {i}) == OpenAmong(t, done) + {i};
  }
}
