// What every action of every run keeps.
module Invariants {
  import opened Domain
  import opened Tables
  import opened TableFacts
  import opened Atomic
  import opened System

  // ---------------------------------------------------------------- the invariant

  // Which program points each request has, and when the UUID and the object exist.
  ghost predicate ShapeOk(c: Client) {
    && (c.upload.Some? ==>
          && c.request.Confirm?
          && c.drew
          && c.upload.value == ObjectKey(c.request.id, c.id, ExtensionFor(c.request.contentType)))
    && match c.pc
       case Called => !c.drew && c.upload.None?
       case CheckPending => c.request.CreatePickup? && c.drew
       case InsertRow => (c.request.CreatePickup? || c.request.CreateHousehold?) && c.drew
       case CommitRow => c.request.CreatePickup? && c.drew
       case TryUpdate =>
         || (c.request.Confirm? && c.upload.Some?)
         || ((Target(c.request).Some? || c.request.CancelStaleOrganic?) && !c.drew)
       case Reread => Target(c.request).Some? && !c.drew
       case InsertBill(_) => c.request.Complete? && !c.drew
       case CommitBill(_) => c.request.Complete? && c.drew
       case PriceBill(_) => c.request.CreatePayment? && !c.drew
       case InsertManualBill(_) => c.request.CreatePayment? && c.drew
       case UploadProof => c.request.Confirm? && !c.drew && c.upload.None?
       case StampProof => c.request.Confirm? && c.upload.Some?
       case Done(_, _) => true
  }

  // The row an open completion holds is still the committed one, and still scheduled.
  ghost predicate HoldsRow(t: Tables, c: Client, row: Pickup)
    requires c.request.Complete?
  {
    c.request.id in t.pickups && CompleteRow(t.pickups[c.request.id], c.now) == Some(row)
  }

  ghost predicate PricedRight(t: Tables, c: Client, kind: PickupType)
    requires c.request.CreatePayment?
  {
    && c.request.wasteId in t.pickups
    && t.pickups[c.request.wasteId].householdId == c.request.householdId
    && t.pickups[c.request.wasteId].kind == kind
  }

  // The UPDATE of this request would find no row to change.
  ghost predicate GuardLost(t: Tables, r: Request)
    requires Target(r).Some?
  {
    var id := Target(r).value;
    id in t.pickups ==>
      match r
      case Schedule(_, _) => CanSchedule(t.pickups[id]).Some?
      case Cancel(_) => !Open(t.pickups[id])
      case _ => true
  }

  // A creating call that has looked for pending payments, found none, and gone on.
  ghost predicate PastCheck(c: Client) {
    c.request.CreatePickup? && (c.pc.InsertRow? || c.pc.CommitRow? || (c.pc.Done? && c.pc.result.GotPickup?))
  }

  // What a call may rely on between its own steps, whatever the others do.
  ghost predicate Relies(cfg: Config, t: Tables, c: Client)
    requires ShapeOk(c)
  {
    match c.pc
    case CheckPending => c.id !in t.pickups
    case InsertRow => if c.request.CreatePickup? then c.id !in t.pickups else c.id !in t.households
    case CommitRow => InsertPickupError(t, NewRow(c)) == None
    case Reread => GuardLost(t, c.request)
    case InsertBill(row) => HoldsRow(t, c, row)
    case CommitBill(row) =>
      HoldsRow(t, c, row) && InsertPaymentError(PutPickup(t, row), CompletionPayment(cfg, c, row)) == None
    case PriceBill(kind) => PricedRight(t, c, kind)
    case InsertManualBill(kind) => PricedRight(t, c, kind) && c.id !in t.payments
    case UploadProof => c.request.id in t.payments
    case StampProof => c.request.id in t.payments
    case TryUpdate => c.request.Confirm? ==> c.request.id in t.payments
    case _ => true
  }

  ghost predicate TimesOk(s: System, c: Client) {
    c.called < s.steps && c.now <= s.clock && (c.pc.Done? ==> c.called < c.pc.returned < s.steps)
  }

  ghost predicate ClientOk(cfg: Config, s: System, c: Client) {
    && ShapeOk(c)
    && TimesOk(s, c)
    && Relies(cfg, s.tables, c)
    && (c.drew ==> c.id in s.used)
    && (Target(c.request).Some? ==> Target(c.request).value in s.used)
  }

  // UUIDs do not collide, nobody names an unpublished pickup, and row locks exclude.
  ghost predicate Apart(c: Client, d: Client) {
    && (c.drew && d.drew ==> c.id != d.id)
    && (Target(c.request).Some? ==> !HoldsUnpublished(d, Target(c.request).value))
    && (c.request.Complete? ==> !(LocksPickup(c, c.request.id) && LocksPickup(d, c.request.id)))
  }

  ghost predicate Inv(cfg: Config, s: System) {
    && TablesOk(cfg.pricing, s.tables)
    && s.tables.households.Keys <= s.used
    && s.tables.pickups.Keys <= s.used
    && s.tables.payments.Keys <= s.used
    && (forall c :: c in s.clients ==> ClientOk(cfg, s, s.clients[c]))
    && (forall c, d :: c in s.clients && d in s.clients && c != d ==> Apart(s.clients[c], s.clients[d]))
  }

  lemma InitialInv(cfg: Config, s: System)
    requires Initial(s)
    ensures Inv(cfg, s)
  {
  }

  // ---------------------------------------------------------------- the moving client

  // The facts about client c that its own step needs, and, beyond them, about the tables.
  ghost predicate Acting(cfg: Config, s: System, c: Client, draw: Id) {
    && Keyed(s.tables)
    && s.tables.households.Keys <= s.used
    && s.tables.pickups.Keys <= s.used
    && s.tables.payments.Keys <= s.used
    && ClientOk(cfg, s, c)
    && !c.pc.Done?
    && draw !in s.used
  }

  ghost predicate Ready(cfg: Config, s: System, c: Client, draw: Id) {
    TablesOk(cfg.pricing, s.tables) && Acting(cfg, s, c, draw)
  }

  // What the move leaves of the tables.
  ghost predicate TablesMoveOk(cfg: Config, s: System, m: Move) {
    TablesOk(cfg.pricing, m.tables) && Advances(s.tables, m.tables)
  }

  // What the move makes of the client.
  ghost predicate ClientMoveOk(cfg: Config, s: System, c: Client, draw: Id, m: Move) {
    var c' := m.client;
    && ShapeOk(c')
    && Relies(cfg, m.tables, c')
    && c'.request == c.request
    && c'.called == c.called
    && (c'.now == c.now || c'.now == s.clock)
    && (c.drew ==> c'.drew && c'.id == c.id)
    && (c'.drew && !c.drew ==> c'.id == draw)
    && (c'.pc.Done? ==> c'.pc.returned == s.steps)
  }

  lemma StepMoveOk(cfg: Config, s: System, c: Client, draw: Id, fault: Option<Error>)
    requires Ready(cfg, s, c, draw)
    ensures TablesMoveOk(cfg, s, Step(cfg, s, c, draw, fault))
    ensures ClientMoveOk(cfg, s, c, draw, Step(cfg, s, c, draw, fault))
  {
    StepTables(cfg, s, c, draw, fault);
    StepClient(cfg, s, c, draw, fault);
  }

  lemma StepTables(cfg: Config, s: System, c: Client, draw: Id, fault: Option<Error>)
    requires Ready(cfg, s, c, draw)
    ensures TablesMoveOk(cfg, s, Step(cfg, s, c, draw, fault))
  {
    if fault.Some? && !PurelyLocal(c) {
      AdvancesReflexive(s.tables);
    } else {
      match c.request {
        case CreatePickup(_, _, _) => CreatePickupTables(cfg, s, c, draw);
        case Schedule(_, _) => ScheduleTables(cfg, s, c, draw);
        case Complete(_) => CompleteTables(cfg, s, c, draw);
        case Cancel(_) => CancelTables(cfg, s, c, draw);
        case CancelStaleOrganic => SweepTablesStep(cfg, s, c);
        case CreatePayment(_, _) => CreatePaymentTables(cfg, s, c, draw);
        case Confirm(_, _) => ConfirmTables(cfg, s, c, draw);
        case CreateHousehold(_, _) => CreateHouseholdTables(cfg, s, c, draw);
        case DeleteHousehold(_) => DeleteHouseholdTables(cfg, s, c, draw);
      }
    }
  }

  lemma CreatePickupTables(cfg: Config, s: System, c: Client, draw: Id)
    requires Ready(cfg, s, c, draw) && c.request.CreatePickup?
    ensures TablesMoveOk(cfg, s, StepCreatePickup(s, c, draw))
  {
    if c.pc.CommitRow? {
      InsertPickupKeeps(cfg.pricing, s.tables, NewRow(c));
    } else {
      UnchangedTables(cfg, s, StepCreatePickup(s, c, draw));
    }
  }

  lemma UnchangedTables(cfg: Config, s: System, m: Move)
    requires TablesOk(cfg.pricing, s.tables) && m.tables == s.tables
    ensures TablesMoveOk(cfg, s, m)
  {
    AdvancesReflexive(s.tables);
  }

  lemma ScheduleTables(cfg: Config, s: System, c: Client, draw: Id)
    requires Ready(cfg, s, c, draw) && c.request.Schedule?
    ensures TablesMoveOk(cfg, s, StepSchedule(s, c))
  {
    var m := StepSchedule(s, c);
    if c.pc.TryUpdate? && m.client.pc.Done? {
      UpdatePickupKeeps(cfg.pricing, s.tables, m.client.pc.result.pickup);
    } else {
      UnchangedTables(cfg, s, m);
    }
  }

  lemma CancelTables(cfg: Config, s: System, c: Client, draw: Id)
    requires Ready(cfg, s, c, draw) && c.request.Cancel?
    ensures TablesMoveOk(cfg, s, StepCancel(s, c))
  {
    var m := StepCancel(s, c);
    if c.pc.TryUpdate? && m.client.pc.Done? {
      UpdatePickupKeeps(cfg.pricing, s.tables, m.client.pc.result.pickup);
    } else {
      UnchangedTables(cfg, s, m);
    }
  }

  lemma CompleteTables(cfg: Config, s: System, c: Client, draw: Id)
    requires Ready(cfg, s, c, draw) && c.request.Complete?
    ensures TablesMoveOk(cfg, s, StepComplete(cfg, s, c, draw))
  {
    if c.pc.CommitBill? {
      CompletePickupKeeps(cfg.pricing, s.tables, c.pc.row, c.now, CompletionPayment(cfg, c, c.pc.row));
    } else {
      UnchangedTables(cfg, s, StepComplete(cfg, s, c, draw));
    }
  }

  lemma SweptTables(cfg: Config, s: System, u: Tables, cutoff: Time, now: Time)
    requires TablesOk(cfg.pricing, s.tables) && u == SweepTables(s.tables, cutoff, now)
    ensures forall m: Move :: m.tables == u ==> TablesMoveOk(cfg, s, m)
  {
    SweepKeeps(cfg.pricing, s.tables, cutoff, now);
  }

  lemma SweepTablesStep(cfg: Config, s: System, c: Client)
    requires TablesOk(cfg.pricing, s.tables) && c.request.CancelStaleOrganic?
    ensures TablesMoveOk(cfg, s, StepSweep(cfg, s, c))
  {
    if c.pc.TryUpdate? {
      SweptTables(cfg, s, SweepTables(s.tables, c.now - cfg.organicTTL, c.now), c.now - cfg.organicTTL, c.now);
    } else {
      UnchangedTables(cfg, s, StepSweep(cfg, s, c));
    }
  }

  lemma CreatePaymentTables(cfg: Config, s: System, c: Client, draw: Id)
    requires Ready(cfg, s, c, draw) && c.request.CreatePayment?
    ensures TablesMoveOk(cfg, s, StepCreatePayment(cfg, s, c, draw))
  {
    if c.pc.InsertManualBill? && InsertPaymentError(s.tables, ManualPayment(cfg, c, c.pc.kind)) == None {
      InsertPaymentKeeps(cfg.pricing, s.tables, ManualPayment(cfg, c, c.pc.kind));
    } else {
      UnchangedTables(cfg, s, StepCreatePayment(cfg, s, c, draw));
    }
  }

  lemma ConfirmTables(cfg: Config, s: System, c: Client, draw: Id)
    requires Ready(cfg, s, c, draw) && c.request.Confirm?
    ensures TablesMoveOk(cfg, s, StepConfirm(s, c, draw))
  {
    if c.pc.TryUpdate? && s.tables.payments[c.request.id].status == PaymentPending {
      ConfirmPaymentKeeps(cfg.pricing, s.tables, c.request.id, c.upload.value, c.now);
    } else {
      UnchangedTables(cfg, s, StepConfirm(s, c, draw));
    }
  }

  lemma CreateHouseholdTables(cfg: Config, s: System, c: Client, draw: Id)
    requires Ready(cfg, s, c, draw) && c.request.CreateHousehold?
    ensures TablesMoveOk(cfg, s, StepCreateHousehold(s, c, draw))
  {
    if c.pc.InsertRow? && InsertHouseholdError(s.tables, NewHousehold(c)) == None {
      InsertHouseholdKeeps(cfg.pricing, s.tables, NewHousehold(c));
    } else {
      UnchangedTables(cfg, s, StepCreateHousehold(s, c, draw));
    }
  }

  lemma DeleteHouseholdTables(cfg: Config, s: System, c: Client, draw: Id)
    requires Ready(cfg, s, c, draw) && c.request.DeleteHousehold?
    ensures TablesMoveOk(cfg, s, StepDeleteHousehold(s, c))
  {
    if c.pc.Called? && DeleteHouseholdError(s.tables, c.request.id) == None {
      DeleteHouseholdKeeps(cfg.pricing, s.tables, c.request.id);
    } else {
      UnchangedTables(cfg, s, StepDeleteHousehold(s, c));
    }
  }

  lemma StepClient(cfg: Config, s: System, c: Client, draw: Id, fault: Option<Error>)
    requires Acting(cfg, s, c, draw)
    ensures ClientMoveOk(cfg, s, c, draw, Step(cfg, s, c, draw, fault))
  {
    if !(fault.Some? && !PurelyLocal(c)) {
      match c.request {
        case CreatePickup(_, _, _) => CreatePickupClient(cfg, s, c, draw);
        case Complete(_) => CompleteClient(cfg, s, c, draw);
        case CreatePayment(_, _) => CreatePaymentClient(cfg, s, c, draw);
        case Confirm(_, _) => ConfirmClient(cfg, s, c, draw);
        case CreateHousehold(_, _) => HouseholdClient(cfg, s, c, draw);
        case DeleteHousehold(_) => HouseholdClient(cfg, s, c, draw);
        case _ => UpdateClient(cfg, s, c, draw);
      }
    }
  }

  lemma CreatePickupClient(cfg: Config, s: System, c: Client, draw: Id)
    requires Acting(cfg, s, c, draw) && c.request.CreatePickup?
    ensures ClientMoveOk(cfg, s, c, draw, StepCreatePickup(s, c, draw))
  {
  }

  lemma CompleteClient(cfg: Config, s: System, c: Client, draw: Id)
    requires Acting(cfg, s, c, draw) && c.request.Complete?
    ensures ClientMoveOk(cfg, s, c, draw, StepComplete(cfg, s, c, draw))
  {
  }

  lemma CreatePaymentClient(cfg: Config, s: System, c: Client, draw: Id)
    requires Acting(cfg, s, c, draw) && c.request.CreatePayment?
    ensures ClientMoveOk(cfg, s, c, draw, StepCreatePayment(cfg, s, c, draw))
  {
  }

  lemma ConfirmClient(cfg: Config, s: System, c: Client, draw: Id)
    requires Acting(cfg, s, c, draw) && c.request.Confirm?
    ensures ClientMoveOk(cfg, s, c, draw, StepConfirm(s, c, draw))
  {
  }

  lemma UpdateClient(cfg: Config, s: System, c: Client, draw: Id)
    requires Acting(cfg, s, c, draw)
    ensures c.request.Schedule? ==> ClientMoveOk(cfg, s, c, draw, StepSchedule(s, c))
    ensures c.request.Cancel? ==> ClientMoveOk(cfg, s, c, draw, StepCancel(s, c))
    ensures c.request.CancelStaleOrganic? ==> ClientMoveOk(cfg, s, c, draw, StepSweep(cfg, s, c))
  {
  }

  lemma HouseholdClient(cfg: Config, s: System, c: Client, draw: Id)
    requires Acting(cfg, s, c, draw)
    ensures c.request.CreateHousehold? ==> ClientMoveOk(cfg, s, c, draw, StepCreateHousehold(s, c, draw))
    ensures c.request.DeleteHousehold? ==> ClientMoveOk(cfg, s, c, draw, StepDeleteHousehold(s, c))
  {
  }

  // ---------------------------------------------------------------- everybody else

  // Client d was there, at peace with c, and does not make c wait.
  ghost predicate Beside(cfg: Config, s: System, c: Client, d: Client) {
    && ClientOk(cfg, s, d)
    && Apart(c, d) && Apart(d, c)
    && !Blocks(cfg, s.tables, d, c)
  }

  // What may happen to the tables without d noticing.
  ghost predicate Harmless(t: Tables, u: Tables, d: Client) {
    && Advances(t, u)
    && (forall id :: LocksPickup(d, id) && id in t.pickups ==> u.pickups[id] == t.pickups[id])
    && (forall w :: LocksWaste(d, w) && WasteBilled(u, w) ==> WasteBilled(t, w))
    && (forall h :: LocksHousehold(d, h) && h in t.households ==> h in u.households)
    && (forall id :: HoldsUnpublished(d, id) && id in u.pickups ==> id in t.pickups)
    && (d.pc.InsertRow? && d.id in u.households ==> d.id in t.households)
    && (d.drew && d.id in u.payments ==> d.id in t.payments)
    && (Target(d.request).Some? && Target(d.request).value in u.pickups ==> Target(d.request).value in t.pickups)
  }

  lemma HarmlessKeepsRelies(cfg: Config, t: Tables, u: Tables, d: Client)
    requires ShapeOk(d) && Relies(cfg, t, d) && Harmless(t, u, d) && Keyed(t) && Keyed(u)
    ensures Relies(cfg, u, d)
  {
    match d.pc {
      case CommitBill(row) => HarmlessKeepsBill(cfg, t, u, d, row);
      case CommitRow =>
        assert LocksHousehold(d, d.request.householdId) && HoldsUnpublished(d, d.id);
      case CheckPending => assert HoldsUnpublished(d, d.id);
      case InsertRow => assert d.request.CreatePickup? ==> HoldsUnpublished(d, d.id);
      case InsertBill(row) => HarmlessKeepsRow(t, u, d, row);
      case Reread => HarmlessKeepsGuard(t, u, d);
      case _ =>
    }
  }

  lemma HarmlessKeepsRow(t: Tables, u: Tables, d: Client, row: Pickup)
    requires d.request.Complete? && (d.pc == InsertBill(row) || d.pc == CommitBill(row))
    requires HoldsRow(t, d, row) && Harmless(t, u, d)
    ensures HoldsRow(u, d, row)
  {
    assert LocksPickup(d, d.request.id);
  }

  lemma HarmlessKeepsGuard(t: Tables, u: Tables, d: Client)
    requires Target(d.request).Some? && GuardLost(t, d.request) && Harmless(t, u, d)
    ensures GuardLost(u, d.request)
  {
  }

  lemma HarmlessKeepsBill(cfg: Config, t: Tables, u: Tables, d: Client, row: Pickup)
    requires d.pc == CommitBill(row) && ShapeOk(d) && Relies(cfg, t, d) && Harmless(t, u, d) && Keyed(t) && Keyed(u)
    ensures Relies(cfg, u, d)
  {
    HarmlessKeepsRow(t, u, d, row);
    assert LocksWaste(d, row.id);
    assert row.id == d.request.id && u.pickups[row.id].householdId == row.householdId;
    var bill := CompletionPayment(cfg, d, row);
    assert bill.householdId in PutPickup(u, row).households && bill.wasteId in PutPickup(u, row).pickups;
    assert WasteBilled(PutPickup(u, row), row.id) ==> WasteBilled(u, row.id);
    assert WasteBilled(t, row.id) ==> WasteBilled(PutPickup(t, row), row.id);
  }

  lemma StepHarmless(cfg: Config, s: System, c: Client, d: Client, draw: Id, fault: Option<Error>)
    requires Ready(cfg, s, c, draw) && Beside(cfg, s, c, d)
    ensures Harmless(s.tables, Step(cfg, s, c, draw, fault).tables, d)
  {
    var u := Step(cfg, s, c, draw, fault).tables;
    assert Advances(s.tables, u) by {
      StepTables(cfg, s, c, draw, fault);
    }
    forall id | LocksPickup(d, id) && id in s.tables.pickups
      ensures u.pickups[id] == s.tables.pickups[id]
    {
      LockedRowStays(cfg, s, c, d, draw, fault, id);
    }
    forall w | LocksWaste(d, w)
      ensures !WasteBilled(u, w)
    {
      UnbilledStays(cfg, s, c, d, draw, fault, w);
    }
    NewKeysAreOwn(cfg, s, c, draw, fault);
    forall h | LocksHousehold(d, h) && h in s.tables.households
      ensures h in u.households
    {
      LockedHouseholdStays(cfg, s, c, d, draw, fault, h);
    }
  }

  // A step adds no key but the UUID its own client holds or has just drawn.
  lemma NewKeysAreOwn(cfg: Config, s: System, c: Client, draw: Id, fault: Option<Error>)
    requires Acting(cfg, s, c, draw)
    ensures var u := Step(cfg, s, c, draw, fault).tables;
      && (forall id :: id in u.pickups ==> id in s.tables.pickups || HoldsUnpublished(c, id))
      && (forall id :: id in u.payments ==> id in s.tables.payments || (c.drew && c.id == id))
      && (forall id :: id in u.households ==> id in s.tables.households || (c.drew && c.id == id))
  {
  }

  lemma LockedHouseholdStays(cfg: Config, s: System, c: Client, d: Client, draw: Id, fault: Option<Error>, h: Id)
    requires Acting(cfg, s, c, draw) && Beside(cfg, s, c, d)
    requires LocksHousehold(d, h) && h in s.tables.households
    ensures h in Step(cfg, s, c, draw, fault).tables.households
  {
  }

  lemma LockedRowStays(cfg: Config, s: System, c: Client, d: Client, draw: Id, fault: Option<Error>, id: Id)
    requires Acting(cfg, s, c, draw) && Beside(cfg, s, c, d)
    requires LocksPickup(d, id) && id in s.tables.pickups
    ensures var u := Step(cfg, s, c, draw, fault).tables; id in u.pickups && u.pickups[id] == s.tables.pickups[id]
  {
  }

  lemma UnbilledStays(cfg: Config, s: System, c: Client, d: Client, draw: Id, fault: Option<Error>, w: Id)
    requires Acting(cfg, s, c, draw) && Beside(cfg, s, c, d)
    requires LocksWaste(d, w)
    ensures !WasteBilled(Step(cfg, s, c, draw, fault).tables, w)
  {
  }

  // No step of another client takes away what d relies on: locks, keys and ids see to it.
  lemma OthersRely(cfg: Config, s: System, c: Client, d: Client, draw: Id, fault: Option<Error>)
    requires Ready(cfg, s, c, draw) && Beside(cfg, s, c, d)
    ensures Relies(cfg, Step(cfg, s, c, draw, fault).tables, d)
  {
    StepTables(cfg, s, c, draw, fault);
    StepHarmless(cfg, s, c, d, draw, fault);
    HarmlessKeepsRelies(cfg, s.tables, Step(cfg, s, c, draw, fault).tables, d);
  }

  // The ids and locks a step takes are new or were taken when nobody blocked it.
  lemma TakesOwn(cfg: Config, s: System, c: Client, draw: Id, fault: Option<Error>)
    requires ShapeOk(c)
    ensures var c' := Step(cfg, s, c, draw, fault).client;
      && c'.request == c.request
      && (c'.drew ==> (c.drew && c'.id == c.id) || c'.id == draw)
      && (forall id :: HoldsUnpublished(c', id) ==> HoldsUnpublished(c, id) || id == draw)
      && (forall id :: LocksPickup(c', id) ==> LocksPickup(c, id) || (c.pc.TryUpdate? && c.request == Complete(id)))
  {
  }

  lemma StayApart(cfg: Config, s: System, c: Client, d: Client, draw: Id, fault: Option<Error>)
    requires Ready(cfg, s, c, draw) && Beside(cfg, s, c, d)
    ensures var c' := Step(cfg, s, c, draw, fault).client; Apart(c', d) && Apart(d, c')
  {
    TakesOwn(cfg, s, c, draw, fault);
    ApartFromTaken(cfg, s, c, d, draw, Step(cfg, s, c, draw, fault).client);
  }

  lemma ApartFromTaken(cfg: Config, s: System, c: Client, d: Client, draw: Id, c': Client)
    requires Beside(cfg, s, c, d) && draw !in s.used && ClientOk(cfg, s, c)
    requires c'.request == c.request
    requires c'.drew ==> (c.drew && c'.id == c.id) || c'.id == draw
    requires forall id :: HoldsUnpublished(c', id) ==> HoldsUnpublished(c, id) || id == draw
    requires forall id :: LocksPickup(c', id) ==> LocksPickup(c, id) || (c.pc.TryUpdate? && c.request == Complete(id))
    ensures Apart(c', d) && Apart(d, c')
  {
  }

  // Client k's move from s to s' keeps the invariant if it is right and the others can go on.
  lemma MoveKeepsInv(cfg: Config, s: System, k: ClientId, draw: Id, m: Move, s': System)
    requires Inv(cfg, s) && k in s.clients && draw !in s.used
    requires TablesMoveOk(cfg, s, m) && ClientMoveOk(cfg, s, s.clients[k], draw, m)
    requires s' == System(m.tables, m.objects, s.clock, s.used + {draw}, s.clients[k := m.client], s.steps + 1)
    requires forall i :: i in m.tables.households || i in m.tables.pickups || i in m.tables.payments ==>
      i in s.used + {draw}
    requires forall l :: l in s.clients && l != k ==>
      && Relies(cfg, m.tables, s.clients[l])
      && Apart(m.client, s.clients[l]) && Apart(s.clients[l], m.client)
    ensures Inv(cfg, s')
  {
    forall l | l in s'.clients
      ensures ClientOk(cfg, s', s'.clients[l])
    {
      assert ClientOk(cfg, s, s.clients[l]);
    }
  }

  lemma GoKeepsInv(cfg: Config, s: System, a: Action)
    requires Inv(cfg, s) && Enabled(cfg, s, a) && a.Go?
    ensures Inv(cfg, Next(cfg, s, a)) && Advances(s.tables, Next(cfg, s, a).tables)
  {
    var k, c, m := a.client, s.clients[a.client], Step(cfg, s, s.clients[a.client], a.draw, a.fault);
    assert Ready(cfg, s, c, a.draw);
    StepMoveOk(cfg, s, c, a.draw, a.fault);
    NewKeysAreOwn(cfg, s, c, a.draw, a.fault);
    forall l | l in s.clients && l != k
      ensures Relies(cfg, m.tables, s.clients[l])
      ensures Apart(m.client, s.clients[l]) && Apart(s.clients[l], m.client)
    {
      assert Beside(cfg, s, c, s.clients[l]);
      OthersRely(cfg, s, c, s.clients[l], a.draw, a.fault);
      StayApart(cfg, s, c, s.clients[l], a.draw, a.fault);
    }
    MoveKeepsInv(cfg, s, k, a.draw, m, Next(cfg, s, a));
  }

  lemma NextKeepsInv(cfg: Config, s: System, a: Action)
    requires Inv(cfg, s) && Enabled(cfg, s, a)
    ensures Inv(cfg, Next(cfg, s, a)) && Advances(s.tables, Next(cfg, s, a).tables)
  {
    match a {
      case Tick(_) => AdvancesReflexive(s.tables);
      case Call(_, _) => AdvancesReflexive(s.tables);
      case Go(_, _, _) => GoKeepsInv(cfg, s, a);
    }
  }

  lemma {:induction false} RunKeepsInv(cfg: Config, s: System, run: seq<Action>)
    requires Inv(cfg, s) && IsRun(cfg, s, run)
    ensures Inv(cfg, After(cfg, s, run)) && Advances(s.tables, After(cfg, s, run).tables)
  {
    if run == [] {
      AdvancesReflexive(s.tables);
    } else {
      var front := run[..|run| - 1];
      RunKeepsInv(cfg, s, front);
      NextKeepsInv(cfg, After(cfg, s, front), run[|run| - 1]);
      AdvancesTransitive(s.tables, After(cfg, s, front).tables, After(cfg, s, run).tables);
    }
  }

  lemma ReachableInv(cfg: Config, s: System)
    requires Reachable(cfg, s)
    ensures Inv(cfg, s)
  {
    var s0, run :| Leads(cfg, s0, run, s);
    InitialInv(cfg, s0);
    RunKeepsInv(cfg, s0, run);
  }
}
