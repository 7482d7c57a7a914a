// Listing payments: the null-aware filter, the list and count queries, and their pages.
module PaymentList {
  import opened Domain
  import opened Tables
  import opened System
  import opened Invariants
  import opened Pagination
  import opened PendingRule

  datatype Filter = Filter(
    status: Option<PaymentStatus>,
    householdId: Option<Id>,
    dateFrom: Option<Time>,
    dateTo: Option<Time>)

  // A comparison with a null column is not true, so a bound excludes undated rows.
  predicate Matches(f: Filter, b: Payment) {
    && (f.status.None? || b.status == f.status.value)
    && (f.householdId.None? || b.householdId == f.householdId.value)
    && (f.dateFrom.None? || (b.paymentDate.Some? && f.dateFrom.value <= b.paymentDate.value))
    && (f.dateTo.None? || (b.paymentDate.Some? && b.paymentDate.value <= f.dateTo.value))
  }

  predicate Dated(f: Filter) {
    f.dateFrom.Some? || f.dateTo.Some?
  }

  function Matching(t: Tables, f: Filter): set<Id> {
    set b | b in t.payments && Matches(f, t.payments[b])
  }

  // One way of ordering the table by created_at, newest first; ties are left open.
  ghost predicate IsOrder(t: Tables, order: seq<Id>) {
    && (forall i :: 0 <= i < |order| ==> order[i] in t.payments)
    && (forall b :: b in t.payments ==> b in order)
    && (forall i, j :: 0 <= i < j < |order| ==>
          order[i] != order[j] && t.payments[order[i]].createdAt >= t.payments[order[j]].createdAt)
  }

  function Selected(t: Tables, f: Filter, order: seq<Id>): seq<Payment>
    requires forall i :: 0 <= i < |order| ==> order[i] in t.payments
  {
    if order == [] then []
    else
      var b := t.payments[order[|order| - 1]];
      Selected(t, f, order[..|order| - 1]) + if Matches(f, b) then [b] else []
  }

  // No rows, and no error either, beyond the end; an error only for a negative offset.
  method List(t: Tables, order: seq<Id>, f: Filter, p: Params) returns (rows: Option<seq<Payment>>)
    requires IsOrder(t, order) && InRange(p)
    ensures rows == Page(Selected(t, f, order), p)
  {
    var collected: seq<Payment> := [];
    for i := 0 to |order|
      invariant collected == Selected(t, f, order[..i])
    {
      assert order[..i + 1][..i] == order[..i];
      if Matches(f, t.payments[order[i]]) {
        collected := collected + [t.payments[order[i]]];
      }
    }
    assert order[..|order|] == order;
    rows := Page(collected, p);
  }

  ghost function MatchingIn(t: Tables, f: Filter, ids: set<Id>): set<Id> {
    set b | b in ids && b in t.payments && Matches(f, t.payments[b])
  }

  lemma MatchingOneMore(t: Tables, f: Filter, ids: set<Id>, b: Id)
    requires b in t.payments && b !in ids
    ensures |MatchingIn(t, f, ids + {b})| == |MatchingIn(t, f, ids)| + if Matches(f, t.payments[b]) then 1 else 0
  {
    if Matches(f, t.payments[b]) {
      assert MatchingIn(t, f, ids + {b}) == MatchingIn(t, f, ids) + {b};
    } else {
      assert MatchingIn(t, f, ids + {b}) == MatchingIn(t, f, ids);
    }
  }

  method Count(t: Tables, f: Filter) returns (total: nat)
    ensures total == |Matching(t, f)|
  {
    total := 0;
    var rest := t.payments.Keys;
    ghost var counted: set<Id> := {};
    while rest != {}
      invariant rest !! counted && rest + counted == t.payments.Keys
      invariant total == |MatchingIn(t, f, counted)|
      decreases rest
    {
      var b :| b in rest;
      MatchingOneMore(t, f, counted, b);
      if Matches(f, t.payments[b]) {
        total := total + 1;
      }
      rest, counted := rest - {b}, counted + {b};
    }
    assert MatchingIn(t, f, counted) == Matching(t, f);
  }

  // ---------------------------------------------------------------- what a list shows

  ghost function Ids(rows: seq<Payment>): set<Id> {
    set i | 0 <= i < |rows| :: rows[i].id
  }

  // These rows are the rows with these ids, each once.
  ghost predicate RowsOf(t: Tables, ids: set<Id>, rows: seq<Payment>) {
    && |rows| == |ids|
    && Ids(rows) == ids
    && (forall i :: 0 <= i < |rows| ==> rows[i].id in t.payments && rows[i] == t.payments[rows[i].id])
  }

  ghost function MatchingAmong(t: Tables, f: Filter, order: seq<Id>): set<Id> {
    set b | b in t.payments && b in order && Matches(f, t.payments[b])
  }

  lemma {:induction false} SelectedIs(t: Tables, f: Filter, order: seq<Id>)
    requires Keyed(t)
    requires forall i :: 0 <= i < |order| ==> order[i] in t.payments
    requires forall i, j :: 0 <= i < j < |order| ==> order[i] != order[j]
    ensures RowsOf(t, MatchingAmong(t, f, order), Selected(t, f, order))
  {
    if order == [] {
      assert MatchingAmong(t, f, order) == {};
    } else {
      var front, id := order[..|order| - 1], order[|order| - 1];
      SelectedIs(t, f, front);
      MatchingAppend(t, f, front, id);
      assert order == front + [id];
      if Matches(f, t.payments[id]) {
        RowsAppend(t, MatchingAmong(t, f, front), Selected(t, f, front), id);
      } else {
        assert Selected(t, f, front) + [] == Selected(t, f, front);
      }
    }
  }

  lemma MatchingAppend(t: Tables, f: Filter, front: seq<Id>, id: Id)
    requires id in t.payments && forall i :: 0 <= i < |front| ==> front[i] != id
    ensures id !in MatchingAmong(t, f, front)
    ensures MatchingAmong(t, f, front + [id]) ==
      if Matches(f, t.payments[id]) then MatchingAmong(t, f, front) + {id} else MatchingAmong(t, f, front)
  {
    assert forall b :: b in front + [id] <==> b in front || b == id;
  }

  lemma RowsAppend(t: Tables, ids: set<Id>, rows: seq<Payment>, id: Id)
    requires RowsOf(t, ids, rows) && id in t.payments && t.payments[id].id == id && id !in ids
    ensures RowsOf(t, ids + {id}, rows + [t.payments[id]])
  {
    IdsAppend(rows, t.payments[id]);
  }

  lemma IdsAppend(rows: seq<Payment>, b: Payment)
    ensures Ids(rows + [b]) == Ids(rows) + {b.id}
  {
    var whole := rows + [b];
    assert whole[|rows|] == b;
    assert forall i :: 0 <= i < |rows| ==> whole[i] == rows[i];
    forall id | id in Ids(rows) + {b.id}
      ensures id in Ids(whole)
    {
      if id != b.id {
        var i :| 0 <= i < |rows| && rows[i].id == id;
        assert whole[i].id == id;
      }
    }
  }

  // The list has each matching payment once, and Count is its length.
  lemma CountIsLength(t: Tables, f: Filter, order: seq<Id>)
    requires IsOrder(t, order) && Keyed(t)
    ensures |Selected(t, f, order)| == |Matching(t, f)|
    ensures Ids(Selected(t, f, order)) == Matching(t, f)
  {
    SelectedIs(t, f, order);
    assert MatchingAmong(t, f, order) == Matching(t, f);
  }

  // A payment is listed exactly if it has the status and the household asked for and
  // was paid no earlier and no later than asked; a bound leaves out what is not paid.
  lemma ListedExactly(t: Tables, f: Filter, order: seq<Id>, b: Id)
    requires IsOrder(t, order) && Keyed(t)
    ensures b in Ids(Selected(t, f, order)) <==>
      && b in t.payments
      && (f.status.Some? ==> t.payments[b].status == f.status.value)
      && (f.householdId.Some? ==> t.payments[b].householdId == f.householdId.value)
      && (f.dateFrom.Some? || f.dateTo.Some? ==> t.payments[b].paymentDate.Some?)
      && (f.dateFrom.Some? ==> t.payments[b].paymentDate.value >= f.dateFrom.value)
      && (f.dateTo.Some? ==> t.payments[b].paymentDate.value <= f.dateTo.value)
  {
    CountIsLength(t, f, order);
  }

  // As many pages as the total calls for, put together, show exactly the filtered rows.
  lemma PagesShowEachOnce(t: Tables, f: Filter, order: seq<Id>, perPage: nat)
    requires IsOrder(t, order) && Keyed(t) && 1 <= perPage <= MAX_PER_PAGE && |Matching(t, f)| <= MAX_INT64
    ensures PageCount(|Matching(t, f)|, perPage) <= MAX_INT64
    ensures FirstPages(Selected(t, f, order), perPage, PageCount(|Matching(t, f)|, perPage)) == Selected(t, f, order)
  {
    CountIsLength(t, f, order);
    PagesPartition(Selected(t, f, order), perPage);
  }

  lemma MatchingDated(cfg: Config, s: System, f: Filter, b: Id)
    requires Reachable(cfg, s) && Dated(f) && b in Matching(s.tables, f)
    ensures s.tables.payments[b].status == PaymentPaid
  {
    ReachableInv(cfg, s);
    assert BillOk(cfg.pricing, s.tables, s.tables.payments[b]);
  }

  lemma SelectedMatches(t: Tables, f: Filter, order: seq<Id>, i: nat)
    requires Keyed(t) && IsOrder(t, order) && i < |Selected(t, f, order)|
    ensures Selected(t, f, order)[i].id in Matching(t, f)
    ensures Selected(t, f, order)[i] == t.payments[Selected(t, f, order)[i].id]
  {
    CountIsLength(t, f, order);
    SelectedIs(t, f, order);
    assert Selected(t, f, order)[i].id in Ids(Selected(t, f, order));
  }

  // A date bound leaves only paid payments, so asking for pending ones within dates
  // finds none.
  lemma DatedMeansPaid(cfg: Config, s: System, f: Filter, order: seq<Id>)
    requires Reachable(cfg, s) && IsOrder(s.tables, order) && Dated(f)
    ensures forall i :: 0 <= i < |Selected(s.tables, f, order)| ==>
      Selected(s.tables, f, order)[i].status == PaymentPaid
    ensures f.status == Some(PaymentPending) || f.status == Some(PaymentFailed) ==>
      Selected(s.tables, f, order) == [] && Matching(s.tables, f) == {}
  {
    var t, rows := s.tables, Selected(s.tables, f, order);
    assert Keyed(t) by {
      ReachableInv(cfg, s);
    }
    forall i | 0 <= i < |rows|
      ensures rows[i].status == PaymentPaid && rows[i].id in Matching(t, f)
    {
      SelectedMatches(t, f, order, i);
      MatchingDated(cfg, s, f, rows[i].id);
    }
    forall b | b in Matching(t, f)
      ensures t.payments[b].status == PaymentPaid
    {
      MatchingDated(cfg, s, f, b);
    }
    if rows != [] {
      assert rows[0].id in Matching(t, f);
    }
  }

  // ---------------------------------------------------------------- rows and total in two reads

  // Some call has raised a payment of the household, or of any, since.
  ghost predicate RaisedFor(s: System, householdId: Option<Id>, at: nat) {
    exists b, h :: RaisedSince(s, b, h, at) && (householdId.None? || householdId.value == h)
  }

  // The rows are read first and the total after them, by another statement. Without a
  // filter on status or date the total is never short of the rows that matched, and it
  // is their number exactly if no payment of that household was raised in between.
  lemma TotalReadLaterExactly(cfg: Config, s: System, run: seq<Action>, n: nat, f: Filter)
    requires Initial(s) && IsRun(cfg, s, run) && n <= |run| && f.status.None? && !Dated(f)
    ensures IsRun(cfg, s, run[..n])
    ensures var was, s' := After(cfg, s, run[..n]), After(cfg, s, run);
      && Matching(was.tables, f) <= Matching(s'.tables, f)
      && (|Matching(s'.tables, f)| == |Matching(was.tables, f)| <==> !RaisedFor(s', f.householdId, was.steps))
  {
    InitialInv(cfg, s);
    RunSince(cfg, s, run, n);
    var was, s' := After(cfg, s, run[..n]), After(cfg, s, run);
    MatchingGrows(was.tables, s', was.steps, f);
    LargerExactly(Matching(was.tables, f), Matching(s'.tables, f));
  }

  lemma MatchingGrows(t: Tables, s: System, at: nat, f: Filter)
    requires Advances(t, s.tables) && PaymentsSince(t, s, at) && f.status.None? && !Dated(f)
    ensures Matching(t, f) <= Matching(s.tables, f)
    ensures Matching(t, f) == Matching(s.tables, f) <==> !RaisedFor(s, f.householdId, at)
  {
    if b :| b in Matching(s.tables, f) - Matching(t, f) {
      assert RaisedSince(s, b, s.tables.payments[b].householdId, at);
    }
    if RaisedFor(s, f.householdId, at) {
      var b, h :| RaisedSince(s, b, h, at) && (f.householdId.None? || f.householdId.value == h);
      assert b in Matching(s.tables, f) && b !in Matching(t, f);
    }
  }

  lemma LargerExactly(a: set<Id>, b: set<Id>)
    requires a <= b
    ensures |a| == |b| <==> a == b
  {
    assert b == a + (b - a);
  }
}
