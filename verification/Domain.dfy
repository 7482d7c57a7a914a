// The entities of internal/core/domain: plain values, their statuses, the prices
// and the catalogue of errors the services return.
module Domain {

  datatype Option<+T> = None | Some(value: T)

  // UUIDs are opaque names; timestamps are microseconds; money is integer cents.
  type Id = nat
  type Time = int
  type Cents = int

  datatype PickupType = Organic | Plastic | Paper | Electronic

  datatype PickupStatus = PickupPending | PickupScheduled | PickupCompleted | PickupCanceled

  datatype PaymentStatus = PaymentPending | PaymentPaid | PaymentFailed

  datatype Household = Household(id: Id, ownerName: string, address: string, createdAt: Time, updatedAt: Time)

  datatype Pickup = Pickup(
    id: Id,
    householdId: Id,
    kind: PickupType,
    status: PickupStatus,
    pickupDate: Option<Time>,
    safetyCheck: bool,
    createdAt: Time,
    updatedAt: Time)

  // The storage key "payments/{payment}/{random}{extension}"; the URL that Put
  // returns is this key behind a fixed prefix, so the key stands for the URL.
  datatype ObjectKey = ObjectKey(paymentId: Id, suffix: Id, extension: string)

  datatype Payment = Payment(
    id: Id,
    householdId: Id,
    wasteId: Id,
    amount: Cents,
    paymentDate: Option<Time>,
    status: PaymentStatus,
    proofFileURL: Option<ObjectKey>,
    createdAt: Time,
    updatedAt: Time)

  datatype Error =
    | HouseholdNotFound
    | HouseholdHasPendingPayment
    | HouseholdHasDependents
    | PickupNotFound
    | PickupNotPending
    | PickupNotScheduled
    | SafetyCheckRequired
    | PickupNotCancelable
    | PaymentNotFound
    | PaymentNotPending
    | PaymentAlreadyExists
    | PaymentHouseholdMismatch
    | StorageUnavailable
    | ServiceUnavailable
    | InternalError

  datatype Pricing = Pricing(standard: Cents, electronic: Cents) {
    function AmountFor(kind: PickupType): Cents {
      if kind == Electronic then electronic else standard
    }
  }

  // What the composition root injects into the services.
  datatype Config = Config(pricing: Pricing, organicTTL: Time)

  // Still waiting to be picked up: the statuses a cancellation accepts.
  predicate Open(p: Pickup) {
    p.status in {PickupPending, PickupScheduled}
  }

  function CanSchedule(p: Pickup): Option<Error> {
    if p.status != PickupPending then Some(PickupNotPending)
    else if p.kind == Electronic && !p.safetyCheck then Some(SafetyCheckRequired)
    else None
  }

  // The row pickup.Create builds.
  function NewPickup(id: Id, householdId: Id, kind: PickupType, safetyCheck: bool, now: Time): Pickup {
    Pickup(id, householdId, kind, PickupPending, None, safetyCheck, now, now)
  }

  // The row that both pickup.Complete and payment.Create build.
  function NewPayment(pricing: Pricing, id: Id, householdId: Id, wasteId: Id, kind: PickupType, now: Time): Payment {
    Payment(id, householdId, wasteId, pricing.AmountFor(kind), None, PaymentPending, None, now, now)
  }

  function ExtensionFor(contentType: string): string {
    if contentType == "image/jpeg" then ".jpg"
    else if contentType == "image/png" then ".png"
    else if contentType == "application/pdf" then ".pdf"
    else ""
  }
}
