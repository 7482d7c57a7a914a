// The running service: any number of calls in flight, each a little program over
// repository and storage calls. One action is one such call by one client, a new
// call arriving, or the clock moving on.
module System {
  import opened Domain
  import opened Tables
  import opened Atomic

  type ClientId = nat

  // Where a call stands: the name says what it does next.
  datatype Pc =
    | Called
    | CheckPending                   // CreatePickup: transaction open, about to look for a pending payment
    | InsertRow                      // CreatePickup, CreateHousehold: about to insert the new row
    | CommitRow                      // CreatePickup: row inserted but not committed
    | TryUpdate                      // Schedule, Complete, Cancel, sweep, Confirm: about to send the guarded UPDATE
    | Reread                         // Schedule, Complete, Cancel: the guard was lost, about to find out why
    | InsertBill(row: Pickup)        // Complete: row updated and locked but not committed, about to insert the payment
    | CommitBill(row: Pickup)        // Complete: both writes done but not committed
    | PriceBill(kind: PickupType)    // CreatePayment: the pickup was read
    | InsertManualBill(kind: PickupType)
    | UploadProof                    // Confirm: the payment was read as pending
    | StampProof                     // Confirm: the proof is stored, about to read the clock
    | Done(result: Result, returned: nat)

  datatype Client = Client(
    request: Request,
    called: nat,                     // index of the action that started the call
    now: Time,                       // the one timestamp the call reads
    drew: bool,                      // whether it has drawn its one UUID
    id: Id,                          // that UUID
    upload: Option<ObjectKey>,       // the proof object it stored
    pc: Pc)

  datatype System = System(
    tables: Tables,
    objects: set<ObjectKey>,
    clock: Time,
    used: set<Id>,                   // every UUID drawn, offered or named so far
    clients: map<ClientId, Client>,
    steps: nat)

  datatype Action =
    | Tick(elapsed: nat)
    | Call(client: ClientId, request: Request)
    | Go(client: ClientId, draw: Id, fault: Option<Error>)

  // ---------------------------------------------------------------- one client, one step

  datatype Move = Move(client: Client, tables: Tables, objects: set<ObjectKey>)

  function Finish(c: Client, r: Result, at: nat): Client {
    c.(pc := Done(r, at))
  }

  // Steps that only read the clock or draw a UUID cannot fail.
  predicate PurelyLocal(c: Client) {
    match c.pc
    case Called =>
      c.request.Schedule? || c.request.Cancel? || c.request.CancelStaleOrganic? || c.request.CreateHousehold?
    case PriceBill(_) => true
    case StampProof => true
    case _ => false
  }

  function FaultError(c: Client, fault: Error): Error {
    if c.pc.UploadProof? then StorageUnavailable else fault
  }

  function NewRow(c: Client): Pickup
    requires c.request.CreatePickup?
  {
    NewPickup(c.id, c.request.householdId, c.request.kind, c.request.safetyCheck, c.now)
  }

  function CompletionPayment(cfg: Config, c: Client, row: Pickup): Payment {
    NewPayment(cfg.pricing, c.id, row.householdId, row.id, row.kind, c.now)
  }

  function ManualPayment(cfg: Config, c: Client, kind: PickupType): Payment
    requires c.request.CreatePayment?
  {
    NewPayment(cfg.pricing, c.id, c.request.householdId, c.request.wasteId, kind, c.now)
  }

  function NewHousehold(c: Client): Household
    requires c.request.CreateHousehold?
  {
    Household(c.id, c.request.ownerName, c.request.address, c.now, c.now)
  }

  function StepCreatePickup(s: System, c: Client, draw: Id): Move
    requires c.request.CreatePickup?
  {
    var t, o := s.tables, s.objects;
    match c.pc
    case Called => Move(c.(now := s.clock, drew := true, id := draw, pc := CheckPending), t, o)
    case CheckPending =>
      if HasPending(t, c.request.householdId)
      then Move(Finish(c, Failed(HouseholdHasPendingPayment), s.steps), t, o)
      else Move(c.(pc := InsertRow), t, o)
    case InsertRow => (
      match InsertPickupError(t, NewRow(c))
      case Some(e) => Move(Finish(c, Failed(e), s.steps), t, o)
      case None => Move(c.(pc := CommitRow), t, o))
    case CommitRow => Move(Finish(c, GotPickup(NewRow(c)), s.steps), PutPickup(t, NewRow(c)), o)
    case _ => Move(c, t, o)
  }

  // A guarded single-row UPDATE outside a transaction, then the diagnostic read.
  function StepUpdate(s: System, c: Client, row: Option<Pickup>): Move {
    match row
    case None => Move(c.(pc := Reread), s.tables, s.objects)
    case Some(p) => Move(Finish(c, GotPickup(p), s.steps), PutPickup(s.tables, p), s.objects)
  }

  function StepSchedule(s: System, c: Client): Move
    requires c.request.Schedule?
  {
    var t, o, id := s.tables, s.objects, c.request.id;
    match c.pc
    case Called => Move(c.(now := s.clock, pc := TryUpdate), t, o)
    case TryUpdate =>
      StepUpdate(s, c, if id in t.pickups then ScheduleRow(t.pickups[id], c.request.pickupDate, c.now) else None)
    case Reread =>
      var error :=
        if id !in t.pickups then PickupNotFound
        else match CanSchedule(t.pickups[id])
          case Some(e) => e
          case None => PickupNotPending;
      Move(Finish(c, Failed(error), s.steps), t, o)
    case _ => Move(c, t, o)
  }

  function StepCancel(s: System, c: Client): Move
    requires c.request.Cancel?
  {
    var t, o, id := s.tables, s.objects, c.request.id;
    match c.pc
    case Called => Move(c.(now := s.clock, pc := TryUpdate), t, o)
    case TryUpdate => StepUpdate(s, c, if id in t.pickups then CancelRow(t.pickups[id], c.now) else None)
    case Reread =>
      Move(Finish(c, Failed(if id in t.pickups then PickupNotCancelable else PickupNotFound), s.steps), t, o)
    case _ => Move(c, t, o)
  }

  // The writes of the transaction stay in the client until the commit; a failed
  // INSERT rolls it back, which drops them together with the locks.
  function StepComplete(cfg: Config, s: System, c: Client, draw: Id): Move
    requires c.request.Complete?
  {
    var t, o, id := s.tables, s.objects, c.request.id;
    match c.pc
    case Called => Move(c.(now := s.clock, pc := TryUpdate), t, o)
    case TryUpdate => (
      match if id in t.pickups then CompleteRow(t.pickups[id], c.now) else None
      case None => Move(c.(pc := Reread), t, o)
      case Some(row) => Move(c.(pc := InsertBill(row)), t, o))
    case Reread =>
      Move(Finish(c, Failed(if id in t.pickups then PickupNotScheduled else PickupNotFound), s.steps), t, o)
    case InsertBill(row) => (
      var d := c.(drew := true, id := draw);
      match InsertPaymentError(PutPickup(t, row), CompletionPayment(cfg, d, row))
      case Some(e) => Move(Finish(d, Failed(e), s.steps), t, o)
      case None => Move(d.(pc := CommitBill(row)), t, o))
    case CommitBill(row) =>
      Move(Finish(c, GotPickup(row), s.steps), PutPayment(PutPickup(t, row), CompletionPayment(cfg, c, row)), o)
    case _ => Move(c, t, o)
  }

  function StepSweep(cfg: Config, s: System, c: Client): Move
    requires c.request.CancelStaleOrganic?
  {
    var t, o := s.tables, s.objects;
    match c.pc
    case Called => Move(c.(now := s.clock, pc := TryUpdate), t, o)
    case TryUpdate =>
      var cutoff := c.now - cfg.organicTTL;
      Move(Finish(c, Swept(|StaleIds(t, cutoff)|), s.steps), SweepTables(t, cutoff, c.now), o)
    case _ => Move(c, t, o)
  }

  function StepCreatePayment(cfg: Config, s: System, c: Client, draw: Id): Move
    requires c.request.CreatePayment?
  {
    var t, o := s.tables, s.objects;
    match c.pc
    case Called =>
      if c.request.wasteId !in t.pickups then Move(Finish(c, Failed(PickupNotFound), s.steps), t, o)
      else
        var p := t.pickups[c.request.wasteId];
        if p.householdId != c.request.householdId
        then Move(Finish(c, Failed(PaymentHouseholdMismatch), s.steps), t, o)
        else Move(c.(pc := PriceBill(p.kind)), t, o)
    case PriceBill(kind) => Move(c.(now := s.clock, drew := true, id := draw, pc := InsertManualBill(kind)), t, o)
    case InsertManualBill(kind) => (
      var bill := ManualPayment(cfg, c, kind);
      match InsertPaymentError(t, bill)
      case Some(e) => Move(Finish(c, Failed(e), s.steps), t, o)
      case None => Move(Finish(c, GotPayment(bill), s.steps), PutPayment(t, bill), o))
    case _ => Move(c, t, o)
  }

  function StepConfirm(s: System, c: Client, draw: Id): Move
    requires c.request.Confirm?
  {
    var t, o, id := s.tables, s.objects, c.request.id;
    match c.pc
    case Called =>
      if id !in t.payments then Move(Finish(c, Failed(PaymentNotFound), s.steps), t, o)
      else if t.payments[id].status != PaymentPending then Move(Finish(c, Failed(PaymentNotPending), s.steps), t, o)
      else Move(c.(pc := UploadProof), t, o)
    case UploadProof =>
      var key := ObjectKey(id, draw, ExtensionFor(c.request.contentType));
      Move(c.(drew := true, id := draw, upload := Some(key), pc := StampProof), t, o + {key})
    case StampProof => Move(c.(now := s.clock, pc := TryUpdate), t, o)
    case TryUpdate => (
      match if id in t.payments && c.upload.Some? then ConfirmRow(t.payments[id], c.upload.value, c.now) else None
      case None => Move(Finish(c, Failed(PaymentNotPending), s.steps), t, o)
      case Some(row) => Move(Finish(c, GotPayment(row), s.steps), PutPayment(t, row), o))
    case _ => Move(c, t, o)
  }

  function StepCreateHousehold(s: System, c: Client, draw: Id): Move
    requires c.request.CreateHousehold?
  {
    var t, o := s.tables, s.objects;
    match c.pc
    case Called => Move(c.(now := s.clock, drew := true, id := draw, pc := InsertRow), t, o)
    case InsertRow => (
      match InsertHouseholdError(t, NewHousehold(c))
      case Some(e) => Move(Finish(c, Failed(e), s.steps), t, o)
      case None => Move(Finish(c, GotHousehold(NewHousehold(c)), s.steps), PutHousehold(t, NewHousehold(c)), o))
    case _ => Move(c, t, o)
  }

  function StepDeleteHousehold(s: System, c: Client): Move
    requires c.request.DeleteHousehold?
  {
    var t, o, id := s.tables, s.objects, c.request.id;
    match c.pc
    case Called => (
      match DeleteHouseholdError(t, id)
      case Some(e) => Move(Finish(c, Failed(e), s.steps), t, o)
      case None => Move(Finish(c, Deleted, s.steps), DropHousehold(t, id), o))
    case _ => Move(c, t, o)
  }

  function Step(cfg: Config, s: System, c: Client, draw: Id, fault: Option<Error>): Move {
    if fault.Some? && !PurelyLocal(c)
    then Move(Finish(c, Failed(FaultError(c, fault.value)), s.steps), s.tables, s.objects)
    else match c.request
      case CreatePickup(_, _, _) => StepCreatePickup(s, c, draw)
      case Schedule(_, _) => StepSchedule(s, c)
      case Complete(_) => StepComplete(cfg, s, c, draw)
      case Cancel(_) => StepCancel(s, c)
      case CancelStaleOrganic => StepSweep(cfg, s, c)
      case CreatePayment(_, _) => StepCreatePayment(cfg, s, c, draw)
      case Confirm(_, _) => StepConfirm(s, c, draw)
      case CreateHousehold(_, _) => StepCreateHousehold(s, c, draw)
      case DeleteHousehold(_) => StepDeleteHousehold(s, c)
  }

  // ---------------------------------------------------------------- locks

  // The open transaction of this call has updated, and so locked, pickup `id`.
  predicate LocksPickup(c: Client, id: Id) {
    c.request.Complete? && c.request.id == id && (c.pc.InsertBill? || c.pc.CommitBill?)
  }

  // It holds an uncommitted entry of the unique index on waste_id.
  predicate LocksWaste(c: Client, wasteId: Id) {
    c.pc.CommitBill? && c.pc.row.id == wasteId
  }

  // Its uncommitted row refers to, and so key-share locks, this household.
  predicate LocksHousehold(c: Client, householdId: Id) {
    c.pc.CommitRow? && c.request.CreatePickup? && c.request.householdId == householdId
  }

  // Client d makes client c wait. Scheduling never waits: the committed version of a
  // row that a completion holds is scheduled, which its guard passes over.
  predicate Blocks(cfg: Config, t: Tables, d: Client, c: Client) {
    match c.pc
    case TryUpdate => (
      match c.request
      case Complete(id) => LocksPickup(d, id)
      case Cancel(id) => LocksPickup(d, id)
      case CancelStaleOrganic =>
        exists i :: i in t.pickups && Stale(t.pickups[i], c.now - cfg.organicTTL) && LocksPickup(d, i)
      case _ => false)
    case InsertBill(row) => LocksWaste(d, row.id)
    case InsertManualBill(_) => c.request.CreatePayment? && LocksWaste(d, c.request.wasteId)
    case Called => c.request.DeleteHousehold? && LocksHousehold(d, c.request.id)
    case _ => false
  }

  // ---------------------------------------------------------------- the transition system

  // The pickup a call is about to update.
  function Target(r: Request): Option<Id> {
    match r
    case Schedule(id, _) => Some(id)
    case Complete(id) => Some(id)
    case Cancel(id) => Some(id)
    case _ => None
  }

  // A pickup id that was drawn but that no response has told anybody yet.
  predicate HoldsUnpublished(c: Client, id: Id) {
    c.request.CreatePickup? && (c.pc.CheckPending? || c.pc.InsertRow? || c.pc.CommitRow?) && c.id == id
  }

  // A caller names a pickup that exists, or an id that will never be one.
  predicate Nameable(s: System, r: Request) {
    Target(r).Some? ==> forall c :: c in s.clients ==> !HoldsUnpublished(s.clients[c], Target(r).value)
  }

  predicate Infrastructure(e: Error) {
    e == ServiceUnavailable || e == InternalError
  }

  predicate Enabled(cfg: Config, s: System, a: Action) {
    match a
    case Tick(_) => true
    case Call(c, r) => c !in s.clients && Nameable(s, r)
    case Go(c, draw, fault) =>
      && c in s.clients
      && !s.clients[c].pc.Done?
      && draw !in s.used
      && (fault.Some? ==> Infrastructure(fault.value))
      && forall d :: d in s.clients && d != c ==> !Blocks(cfg, s.tables, s.clients[d], s.clients[c])
  }

  function Next(cfg: Config, s: System, a: Action): System
    requires Enabled(cfg, s, a)
  {
    match a
    case Tick(elapsed) => s.(clock := s.clock + elapsed, steps := s.steps + 1)
    case Call(c, r) =>
      s.(clients := s.clients[c := Client(r, s.steps, s.clock, false, 0, None, Called)],
         used := if Target(r).Some? then s.used + {Target(r).value} else s.used,
         steps := s.steps + 1)
    case Go(c, draw, fault) =>
      var m := Step(cfg, s, s.clients[c], draw, fault);
      System(m.tables, m.objects, s.clock, s.used + {draw}, s.clients[c := m.client], s.steps + 1)
  }

  // The empty database or the seed: some households, some pending pickups, no payments.
  ghost predicate Initial(s: System) {
    && Keyed(s.tables)
    && (forall i :: i in s.tables.pickups ==> s.tables.pickups[i].status == PickupPending)
    && s.tables.payments == map[]
    && s.objects == {}
    && s.clients == map[]
    && s.tables.households.Keys <= s.used
    && s.tables.pickups.Keys <= s.used
  }

  // A run is the list of actions taken from a start state.
  ghost predicate IsRun(cfg: Config, s: System, run: seq<Action>)
    decreases |run|, 0
  {
    run == [] ||
    (var front := run[..|run| - 1];
     IsRun(cfg, s, front) && Enabled(cfg, After(cfg, s, front), run[|run| - 1]))
  }

  ghost function After(cfg: Config, s: System, run: seq<Action>): System
    requires IsRun(cfg, s, run)
    decreases |run|, 1
  {
    if run == [] then s
    else Next(cfg, After(cfg, s, run[..|run| - 1]), run[|run| - 1])
  }

  ghost predicate Follows(cfg: Config, s0: System, run: seq<Action>, s: System) {
    IsRun(cfg, s0, run) && After(cfg, s0, run) == s
  }

  // One action more.
  lemma Follow(cfg: Config, s0: System, run: seq<Action>, s: System, a: Action, s': System)
      returns (longer: seq<Action>)
    requires Follows(cfg, s0, run, s) && Enabled(cfg, s, a) && Next(cfg, s, a) == s'
    ensures Follows(cfg, s0, longer, s') && longer == run + [a]
  {
    longer := run + [a];
    assert longer[..|longer| - 1] == run;
  }

  ghost predicate Leads(cfg: Config, s0: System, run: seq<Action>, s: System) {
    Initial(s0) && Follows(cfg, s0, run, s)
  }

  // Some run from some start gets there.
  ghost predicate Reachable(cfg: Config, s: System) {
    exists s0, run :: Leads(cfg, s0, run, s)
  }
}
