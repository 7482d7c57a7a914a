// The three tables and the meaning of every SQL statement the Postgres adapter
// sends, with the constraints of the first migration built into the statements.
module Tables {
  import opened Domain

  datatype Tables = Tables(
    households: map<Id, Household>,
    pickups: map<Id, Pickup>,
    payments: map<Id, Payment>)

  // ---------------------------------------------------------------- guarded row updates

  // Scheduling updates the row if it is pending and, if electronic, safety-checked.
  function ScheduleRow(p: Pickup, date: Time, now: Time): Option<Pickup> {
    if p.status == PickupPending && (p.kind != Electronic || p.safetyCheck)
    then Some(p.(status := PickupScheduled, pickupDate := Some(date), updatedAt := now))
    else None
  }

  predicate IsScheduled(t: Tables, id: Id) {
    id in t.pickups && t.pickups[id].status == PickupScheduled
  }

  // Completing updates the row if it is scheduled.
  function CompleteRow(p: Pickup, now: Time): Option<Pickup> {
    if p.status == PickupScheduled
    then Some(p.(status := PickupCompleted, updatedAt := now))
    else None
  }

  // Canceling updates the row if it is pending or scheduled.
  function CancelRow(p: Pickup, now: Time): Option<Pickup> {
    if Open(p) then Some(CanceledRow(p, now)) else None
  }

  function CanceledRow(p: Pickup, now: Time): Pickup {
    p.(status := PickupCanceled, updatedAt := now)
  }

  // Confirming updates the payment if it is pending.
  function ConfirmRow(b: Payment, url: ObjectKey, now: Time): Option<Payment> {
    if b.status == PaymentPending
    then Some(b.(status := PaymentPaid, proofFileURL := Some(url), paymentDate := Some(now), updatedAt := now))
    else None
  }

  // ---------------------------------------------------------------- statements

  function PutPickup(t: Tables, p: Pickup): Tables {
    t.(pickups := t.pickups[p.id := p])
  }

  function PutPayment(t: Tables, b: Payment): Tables {
    t.(payments := t.payments[b.id := b])
  }

  function PutHousehold(t: Tables, h: Household): Tables {
    t.(households := t.households[h.id := h])
  }

  function DropHousehold(t: Tables, id: Id): Tables {
    t.(households := t.households - {id})
  }

  // The rows the sweep is after: organic, still open, created before the cutoff.
  predicate Stale(p: Pickup, cutoff: Time) {
    p.kind == Organic && Open(p) && p.createdAt < cutoff
  }

  function StaleIds(t: Tables, cutoff: Time): set<Id> {
    set i | i in t.pickups && Stale(t.pickups[i], cutoff)
  }

  // The bulk UPDATE; the number of affected rows is |StaleIds(t, cutoff)|.
  function SweepTables(t: Tables, cutoff: Time, now: Time): Tables {
    t.(pickups := map i | i in t.pickups ::
         if Stale(t.pickups[i], cutoff) then CanceledRow(t.pickups[i], now) else t.pickups[i])
  }

  predicate PendingFor(b: Payment, householdId: Id) {
    b.householdId == householdId && b.status == PaymentPending
  }

  predicate HasPending(t: Tables, householdId: Id) {
    exists b :: b in t.payments && PendingFor(t.payments[b], householdId)
  }

  // The unique index ux_payments_waste has an entry for this pickup.
  predicate WasteBilled(t: Tables, wasteId: Id) {
    exists b :: b in t.payments && t.payments[b].wasteId == wasteId
  }

  // Rows that ON DELETE RESTRICT protects.
  predicate HasDependents(t: Tables, householdId: Id) {
    || (exists i :: i in t.pickups && t.pickups[i].householdId == householdId)
    || (exists b :: b in t.payments && t.payments[b].householdId == householdId)
  }

  // numeric(14,2) holds fourteen digits.
  predicate AmountFits(amount: Cents) {
    -100_000_000_000_000 < amount < 100_000_000_000_000
  }

  // What the error mapping makes of INSERT INTO payments: numeric overflow, then
  // either unique key (code 23505), then a missing parent (code 23503).
  function InsertPaymentError(t: Tables, b: Payment): Option<Error> {
    if !AmountFits(b.amount) then Some(InternalError)
    else if b.id in t.payments || WasteBilled(t, b.wasteId) then Some(PaymentAlreadyExists)
    else if b.householdId !in t.households || b.wasteId !in t.pickups then Some(InternalError)
    else None
  }

  function InsertPickupError(t: Tables, p: Pickup): Option<Error> {
    if p.id in t.pickups then Some(InternalError)
    else if p.householdId !in t.households then Some(HouseholdNotFound)
    else None
  }

  function InsertHouseholdError(t: Tables, h: Household): Option<Error> {
    if h.id in t.households then Some(InternalError) else None
  }

  function DeleteHouseholdError(t: Tables, id: Id): Option<Error> {
    if id !in t.households then Some(HouseholdNotFound)
    else if HasDependents(t, id) then Some(HouseholdHasDependents)
    else None
  }

  // ---------------------------------------------------------------- what the tables always satisfy

  // Every row sits under its own primary key, and every foreign key resolves.
  ghost predicate Keyed(t: Tables) {
    && (forall i :: i in t.households ==> t.households[i].id == i)
    && (forall i :: i in t.pickups ==> t.pickups[i].id == i && t.pickups[i].householdId in t.households)
    && (forall b :: b in t.payments ==> t.payments[b].id == b)
  }

  // A payment belongs to the household of the pickup it bills, at that pickup's price.
  ghost predicate BillOk(pricing: Pricing, t: Tables, b: Payment) {
    && b.wasteId in t.pickups
    && b.householdId == t.pickups[b.wasteId].householdId
    && b.amount == pricing.AmountFor(t.pickups[b.wasteId].kind)
    && b.status != PaymentFailed
    && (b.status == PaymentPaid <==> b.paymentDate.Some?)
    && (b.status == PaymentPaid <==> b.proofFileURL.Some?)
    && (b.proofFileURL.Some? ==> b.proofFileURL.value.paymentId == b.id)
  }

  ghost predicate UniqueWaste(t: Tables) {
    forall a, b :: a in t.payments && b in t.payments && t.payments[a].wasteId == t.payments[b].wasteId ==> a == b
  }

  // Past pending means it was scheduled legally.
  ghost predicate LifecycleOk(p: Pickup) {
    p.status in {PickupScheduled, PickupCompleted} ==>
      p.pickupDate.Some? && (p.kind == Electronic ==> p.safetyCheck)
  }

  // Payment b is the one that completing pickup i created.
  ghost predicate CompletionBill(t: Tables, i: Id, b: Id)
    requires i in t.pickups
  {
    b in t.payments && t.payments[b].wasteId == i && t.payments[b].createdAt == t.pickups[i].updatedAt
  }

  ghost predicate CompletedAreBilled(t: Tables) {
    forall i :: i in t.pickups && t.pickups[i].status == PickupCompleted ==> exists b :: CompletionBill(t, i, b)
  }

  ghost predicate TablesOk(pricing: Pricing, t: Tables) {
    && Keyed(t)
    && (forall b :: b in t.payments ==> BillOk(pricing, t, t.payments[b]))
    && UniqueWaste(t)
    && (forall i :: i in t.pickups ==> LifecycleOk(t.pickups[i]))
    && CompletedAreBilled(t)
  }

  // ---------------------------------------------------------------- what no statement ever undoes

  // How far a pickup still has to go; terminal rows have nothing left.
  function Rank(status: PickupStatus): nat {
    match status
    case PickupPending => 2
    case PickupScheduled => 1
    case PickupCompleted => 0
    case PickupCanceled => 0
  }

  ghost predicate PickupAdvances(p: Pickup, q: Pickup) {
    && q.id == p.id && q.householdId == p.householdId && q.kind == p.kind
    && q.safetyCheck == p.safetyCheck && q.createdAt == p.createdAt
    && (q == p || Rank(q.status) < Rank(p.status))
  }

  ghost predicate PaymentAdvances(a: Payment, b: Payment) {
    && b.id == a.id && b.householdId == a.householdId && b.wasteId == a.wasteId
    && b.amount == a.amount && b.createdAt == a.createdAt
    && (b == a || (a.status == PaymentPending && b.status == PaymentPaid))
  }

  // Pickups and payments only ever move forward; a household goes only while childless.
  ghost predicate Advances(t: Tables, u: Tables) {
    && (forall i :: i in t.pickups ==> i in u.pickups && PickupAdvances(t.pickups[i], u.pickups[i]))
    && (forall b :: b in t.payments ==> b in u.payments && PaymentAdvances(t.payments[b], u.payments[b]))
    && (forall h :: h in t.households && h !in u.households ==> !HasDependents(t, h))
  }
}
