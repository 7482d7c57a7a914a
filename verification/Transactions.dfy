// TxManager.Do: programs over repository statements with transactions nested to
// any depth, where an inner Do joins the transaction it finds in its context.
module Transactions {
  import opened Domain
  import opened Tables
  import opened Atomic

  datatype Reply = Ok(tables: Tables) | Err(error: Error)

  // A service callback: what it may send, what it may decide on, how it treats errors.
  datatype Prog =
    | Return
    | Fail(error: Error)
    | Exec(statement: Tables -> Reply)                     // a statement through Executor
    | Choose(query: Tables -> bool, yes: Prog, no: Prog)   // a query, then a branch on its answer
    | Then(first: Prog, second: Prog)                      // stops at the first error
    | Recover(body: Prog, handler: Prog)                   // swallows an error of the body
    | Do(body: Prog)

  // An open transaction: what it sees, and whether a statement has failed in it.
  datatype Tx = Tx(view: Tables, aborted: bool)

  // The committed tables, the transaction in the context, and the failures that
  // BEGIN and COMMIT will meet, in this order.
  datatype World = World(shared: Tables, tx: Option<Tx>, faults: seq<Option<Error>>)

  datatype Ran = Ran(world: World, error: Option<Error>)

  function NextFault(w: World): Option<Error> {
    if w.faults == [] then None else w.faults[0]
  }

  function DropFault(w: World): World {
    if w.faults == [] then w else w.(faults := w.faults[1..])
  }

  // Executor: the transaction if there is one, the pool otherwise. A failed statement
  // aborts its transaction, and an aborted transaction refuses every statement.
  function RunStatement(statement: Tables -> Reply, w: World): Ran {
    match w.tx
    case None => (
      match statement(w.shared)
      case Ok(t) => Ran(w.(shared := t), None)
      case Err(e) => Ran(w, Some(e)))
    case Some(tx) =>
      if tx.aborted then Ran(w, Some(InternalError))
      else match statement(tx.view)
        case Ok(t) => Ran(w.(tx := Some(Tx(t, false))), None)
        case Err(e) => Ran(w.(tx := Some(Tx(tx.view, true))), Some(e))
  }

  function Seen(w: World): Tables {
    match w.tx case None => w.shared case Some(tx) => tx.view
  }

  predicate Refuses(w: World) {
    w.tx.Some? && w.tx.value.aborted
  }

  // The end of an outermost Do whose callback returned r.
  function Close(r: Ran): Ran
    requires r.world.tx.Some?
  {
    var tx, closed := r.world.tx.value, r.world.(tx := None);
    if r.error.Some? then Ran(closed, r.error)                             // rollback
    else if NextFault(closed).Some? then Ran(DropFault(closed), NextFault(closed))
    else if tx.aborted then Ran(DropFault(closed), Some(InternalError))    // the database rolls back instead
    else Ran(DropFault(closed).(shared := tx.view), None)
  }

  function Eval(p: Prog, w: World): (r: Ran)
    ensures r.world.tx.Some? <==> w.tx.Some?
  {
    match p
    case Return => Ran(w, None)
    case Fail(e) => Ran(w, Some(e))
    case Exec(statement) => RunStatement(statement, w)
    case Choose(query, yes, no) =>
      if Refuses(w) then Ran(w, Some(InternalError))
      else if query(Seen(w)) then Eval(yes, w) else Eval(no, w)
    case Then(first, second) =>
      var r := Eval(first, w);
      if r.error.Some? then r else Eval(second, r.world)
    case Recover(body, handler) =>
      var r := Eval(body, w);
      if r.error.Some? then Eval(handler, r.world) else r
    case Do(body) =>
      if w.tx.Some? then Eval(body, w)
      else if NextFault(w).Some? then Ran(DropFault(w), NextFault(w))
      else Close(Eval(body, DropFault(w).(tx := Some(Tx(w.shared, false)))))
  }

  // ---------------------------------------------------------------- the manager itself

  class TxManager {
    var world: World

    constructor (w: World)
      ensures world == w
    {
      world := w;
    }

    method Do(body: Prog) returns (error: Option<Error>)
      modifies this
      ensures Ran(world, error) == Eval(Prog.Do(body), old(world))
      decreases body, 1
    {
      if world.tx.Some? {
        error := Run(body);
        return;
      }
      var fault := NextFault(world);
      world := DropFault(world);
      if fault.Some? {
        return fault;
      }
      world := world.(tx := Some(Tx(world.shared, false)));
      error := Run(body);
      var tx := world.tx.value;
      world := world.(tx := None);
      if error.Some? {
        return;
      }
      error := NextFault(world);
      world := DropFault(world);
      if error.None? {
        if tx.aborted {
          error := Some(InternalError);
        } else {
          world := world.(shared := tx.view);
        }
      }
    }

    method Run(p: Prog) returns (error: Option<Error>)
      modifies this
      ensures Ran(world, error) == Eval(p, old(world))
      decreases p, 0
    {
      match p {
        case Return => error := None;
        case Fail(e) => error := Some(e);
        case Exec(statement) =>
          var r := RunStatement(statement, world);
          world, error := r.world, r.error;
        case Choose(query, yes, no) =>
          if Refuses(world) {
            error := Some(InternalError);
          } else if query(Seen(world)) {
            error := Run(yes);
          } else {
            error := Run(no);
          }
        case Then(first, second) =>
          error := Run(first);
          if error.None? {
            error := Run(second);
          }
        case Recover(body, handler) =>
          error := Run(body);
          if error.Some? {
            error := Run(handler);
          }
        case Do(body) => error := Do(body);
      }
    }
  }

  // ---------------------------------------------------------------- nesting

  // The program without any Do of its own.
  function Erase(p: Prog): Prog {
    match p
    case Return => p
    case Fail(_) => p
    case Exec(_) => p
    case Choose(query, yes, no) => Choose(query, Erase(yes), Erase(no))
    case Then(first, second) => Then(Erase(first), Erase(second))
    case Recover(body, handler) => Recover(Erase(body), Erase(handler))
    case Do(body) => Erase(body)
  }

  // The program with only its outermost Do's left.
  function EraseInner(p: Prog): Prog {
    match p
    case Return => p
    case Fail(_) => p
    case Exec(_) => p
    case Choose(query, yes, no) => Choose(query, EraseInner(yes), EraseInner(no))
    case Then(first, second) => Then(EraseInner(first), EraseInner(second))
    case Recover(body, handler) => Recover(EraseInner(body), EraseInner(handler))
    case Do(body) => Do(Erase(body))
  }

  lemma {:induction false} InnerDoJoins(p: Prog, w: World)
    requires w.tx.Some?
    ensures Eval(p, w) == Eval(Erase(p), w)
  {
    match p {
      case Return =>
      case Fail(_) =>
      case Exec(_) =>
      case Choose(_, yes, no) =>
        InnerDoJoins(yes, w);
        InnerDoJoins(no, w);
      case Then(first, second) =>
        InnerDoJoins(first, w);
        InnerDoJoins(second, Eval(first, w).world);
      case Recover(body, handler) =>
        InnerDoJoins(body, w);
        InnerDoJoins(handler, Eval(body, w).world);
      case Do(body) =>
        InnerDoJoins(body, w);
    }
  }

  // However deep the nesting, only the outermost Do's matter.
  lemma {:induction false} NestingIsInvisible(p: Prog, w: World)
    requires w.tx.None?
    ensures Eval(p, w) == Eval(EraseInner(p), w)
  {
    match p {
      case Return =>
      case Fail(_) =>
      case Exec(_) =>
      case Choose(_, yes, no) =>
        NestingIsInvisible(yes, w);
        NestingIsInvisible(no, w);
      case Then(first, second) =>
        NestingIsInvisible(first, w);
        NestingIsInvisible(second, Eval(first, w).world);
      case Recover(body, handler) =>
        NestingIsInvisible(body, w);
        NestingIsInvisible(handler, Eval(body, w).world);
      case Do(body) =>
        InnerDoJoins(body, DropFault(w).(tx := Some(Tx(w.shared, false))));
    }
  }

  // ---------------------------------------------------------------- all or nothing

  // Inside a transaction nothing shared changes, and once aborted stays aborted.
  lemma {:induction false} NothingLeaks(p: Prog, w: World)
    requires w.tx.Some?
    ensures var r := Eval(p, w); r.world.shared == w.shared && r.world.faults == w.faults
    ensures w.tx.value.aborted ==> Eval(p, w).world == w
  {
    match p {
      case Return =>
      case Fail(_) =>
      case Exec(_) =>
      case Choose(_, yes, no) =>
        NothingLeaks(yes, w);
        NothingLeaks(no, w);
      case Then(first, second) =>
        NothingLeaks(first, w);
        NothingLeaks(second, Eval(first, w).world);
      case Recover(body, handler) =>
        NothingLeaks(body, w);
        NothingLeaks(handler, Eval(body, w).world);
      case Do(body) =>
        NothingLeaks(body, w);
    }
  }

  // What the callback made of the tables, run in a transaction of its own.
  function Inside(body: Prog, w: World): Ran {
    Eval(body, DropFault(w).(tx := Some(Tx(w.shared, false))))
  }

  // The shared tables change by all the writes of the callback exactly if BEGIN, the
  // callback and COMMIT succeed and no statement failed, even one whose error was
  // swallowed; otherwise Do fails and they do not change at all.
  lemma AllOrNothing(body: Prog, w: World)
    requires w.tx.None?
    ensures var r, inner := Eval(Do(body), w), Inside(body, w);
      var succeeds := NextFault(w).None? && inner.error.None? && !inner.world.tx.value.aborted
        && NextFault(inner.world).None?;
      && r.world.tx.None?
      && (r.error.None? <==> succeeds)
      && r.world.shared == (if succeeds then inner.world.tx.value.view else w.shared)
      && (NextFault(w).None? && inner.error.Some? ==> r.error == inner.error)
  {
    NothingLeaks(body, DropFault(w).(tx := Some(Tx(w.shared, false))));
  }

  // ---------------------------------------------------------------- the two transactional services

  function UpdatePickup(id: Id, now: Time): Tables -> Reply {
    (t: Tables) =>
      if id in t.pickups && CompleteRow(t.pickups[id], now).Some?
      then Ok(PutPickup(t, CompleteRow(t.pickups[id], now).value)) else Ok(t)
  }

  function InsertCompletionPayment(cfg: Config, id: Id, now: Time, billId: Id): Tables -> Reply {
    (t: Tables) =>
      if id !in t.pickups then Err(InternalError)
      else
        var p := t.pickups[id];
        var bill := NewPayment(cfg.pricing, billId, p.householdId, p.id, p.kind, now);
        match InsertPaymentError(t, bill)
        case Some(e) => Err(e)
        case None => Ok(PutPayment(t, bill))
  }

  function WhereScheduled(id: Id): Tables -> bool {
    (t: Tables) => IsScheduled(t, id)
  }

  function Exists(id: Id): Tables -> bool {
    (t: Tables) => id in t.pickups
  }

  // pickup.Complete as a callback program.
  function CompleteCallback(cfg: Config, id: Id, now: Time, billId: Id): Prog {
    Choose(WhereScheduled(id),
      Then(Exec(UpdatePickup(id, now)), Exec(InsertCompletionPayment(cfg, id, now, billId))),
      Choose(Exists(id), Fail(PickupNotScheduled), Fail(PickupNotFound)))
  }

  function ErrorOf(r: Result): Option<Error> {
    if r.Failed? then Some(r.error) else None
  }

  lemma CompleteInside(cfg: Config, w: World, id: Id, now: Time, billId: Id)
    requires w.tx == Some(Tx(w.shared, false)) && Keyed(w.shared)
    ensures var r, o := Eval(CompleteCallback(cfg, id, now, billId), w), CompleteSpec(cfg, w.shared, id, now, billId);
      && r.error == ErrorOf(o.result)
      && (r.error.None? ==> r.world.tx == Some(Tx(o.tables, false)))
  {
    var insert := InsertCompletionPayment(cfg, id, now, billId);
    if id in w.shared.pickups && w.shared.pickups[id].status == PickupScheduled {
      var row := CompleteRow(w.shared.pickups[id], now).value;
      var written := w.(tx := Some(Tx(PutPickup(w.shared, row), false)));
      assert UpdatePickup(id, now)(w.shared) == Ok(PutPickup(w.shared, row));
      assert RunStatement(UpdatePickup(id, now), w) == Ran(written, None);
      assert Eval(Exec(UpdatePickup(id, now)), w) == Ran(written, None);
      assert Eval(CompleteCallback(cfg, id, now, billId), w) == Eval(Exec(insert), written) by {
        assert IsScheduled(Seen(w), id);
        assert Eval(Then(Exec(UpdatePickup(id, now)), Exec(insert)), w) == Eval(Exec(insert), written);
      }
      assert PutPickup(w.shared, row).pickups[id] == row;
    } else {
      var no := Choose(Exists(id), Fail(PickupNotScheduled), Fail(PickupNotFound));
      assert !IsScheduled(Seen(w), id);
      assert Eval(CompleteCallback(cfg, id, now, billId), w) == Eval(no, w);
      var e := if id in w.shared.pickups then PickupNotScheduled else PickupNotFound;
      assert Eval(no, w) == Eval(Fail(e), w) == Ran(w, Some(e));
    }
  }

  // Run alone it does what the one-step specification says; if BEGIN or COMMIT fails,
  // it fails and changes nothing.
  lemma CompleteMeetsSpec(cfg: Config, w: World, id: Id, now: Time, billId: Id)
    requires w.tx.None? && Keyed(w.shared)
    ensures var r, o :=
        Eval(Do(CompleteCallback(cfg, id, now, billId)), w), CompleteSpec(cfg, w.shared, id, now, billId);
      && (w.faults == [] ==> r.world.shared == o.tables && r.error == ErrorOf(o.result))
      && (r.error.None? ==> r.world.shared == o.tables && o.result.GotPickup?)
      && (r.error.Some? ==> r.world.shared == w.shared)
  {
    var body := CompleteCallback(cfg, id, now, billId);
    var open := DropFault(w).(tx := Some(Tx(w.shared, false)));
    CompleteInside(cfg, open, id, now, billId);
    NothingLeaks(body, open);
    AllOrNothing(body, w);
  }
}
