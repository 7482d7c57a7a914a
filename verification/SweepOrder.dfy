// The bulk cancellation is the single one, applied to the stale rows in any order.
module SweepOrder {
  import opened Domain
  import opened Tables
  import opened Atomic

  // The tables and the number of successes after canceling the listed pickups one by one.
  datatype Progress = Progress(tables: Tables, successes: nat)

  function CancelEach(t: Tables, ids: seq<Id>, now: Time): Progress {
    if ids == [] then Progress(t, 0)
    else
      var before := CancelEach(t, ids[..|ids| - 1], now);
      var o := CancelSpec(before.tables, ids[|ids| - 1], now);
      Progress(o.tables, before.successes + if o.result.GotPickup? then 1 else 0)
  }

  ghost function Members(ids: seq<Id>): set<Id> {
    set i | i in ids
  }

  // The pickups among `ids` canceled, everything else untouched.
  ghost function CanceledAmong(t: Tables, ids: set<Id>, now: Time): Tables {
    t.(pickups := map i | i in t.pickups ::
         if i in ids && Open(t.pickups[i]) then CanceledRow(t.pickups[i], now) else t.pickups[i])
  }

  ghost function OpenAmong(t: Tables, ids: set<Id>): set<Id> {
    set i | i in ids && i in t.pickups && Open(t.pickups[i])
  }

  lemma {:induction false} CancelEachIs(t: Tables, ids: seq<Id>, now: Time)
    requires Keyed(t)
    ensures CancelEach(t, ids, now) == Progress(CanceledAmong(t, Members(ids), now), |OpenAmong(t, Members(ids))|)
  {
    if ids == [] {
      assert OpenAmong(t, Members(ids)) == {};
      assert CanceledAmong(t, Members(ids), now).pickups == t.pickups;
    } else {
      var front, last := ids[..|ids| - 1], ids[|ids| - 1];
      CancelEachIs(t, front, now);
      assert Members(ids) == Members(front) + {last};
      CancelOneMore(t, Members(front), last, now);
    }
  }

  lemma CancelOneMore(t: Tables, done: set<Id>, i: Id, now: Time)
    requires Keyed(t)
    ensures var o := CancelSpec(CanceledAmong(t, done, now), i, now);
      && o.tables == CanceledAmong(t, done + {i}, now)
      && |OpenAmong(t, done + {i})| == |OpenAmong(t, done)| + (if o.result.GotPickup? then 1 else 0)
  {
    var u, v := CanceledAmong(t, done, now), CanceledAmong(t, done + {i}, now);
    if i in t.pickups && Open(t.pickups[i]) && i !in done {
      assert OpenAmong(t, done + {i}) == OpenAmong(t, done) + {i};
      assert v.pickups == u.pickups[i := CanceledRow(t.pickups[i], now)];
    } else {
      assert OpenAmong(t, done + {i}) == OpenAmong(t, done);
      assert v.pickups == u.pickups;
    }
  }

  // The sweep leaves the tables that canceling the stale pickups in any order at the
  // same time leaves, and its count is the number of those cancellations that succeed.
  lemma SweepIsAnyOrder(t: Tables, cutoff: Time, now: Time, order: seq<Id>)
    requires Keyed(t) && Members(order) == StaleIds(t, cutoff)
    ensures CancelEach(t, order, now) == Progress(SweepTables(t, cutoff, now), |StaleIds(t, cutoff)|)
  {
    CancelEachIs(t, order, now);
    assert OpenAmong(t, Members(order)) == StaleIds(t, cutoff);
    assert CanceledAmong(t, Members(order), now).pickups == SweepTables(t, cutoff, now).pickups;
  }

  ghost function Statuses(t: Tables): map<Id, PickupStatus> {
    map i | i in t.pickups :: t.pickups[i].status
  }

  // Sweeping up to an earlier and then a later cutoff is sweeping up to the later one.
  lemma SweepsCompose(t: Tables, cutoff1: Time, now1: Time, cutoff2: Time, now2: Time)
    requires cutoff1 <= cutoff2
    ensures var u := SweepTables(t, cutoff1, now1);
      && Statuses(SweepTables(u, cutoff2, now2)) == Statuses(SweepTables(t, cutoff2, now2))
      && |StaleIds(t, cutoff1)| + |StaleIds(u, cutoff2)| == |StaleIds(t, cutoff2)|
  {
    var u := SweepTables(t, cutoff1, now1);
    assert StaleIds(t, cutoff2) == StaleIds(t, cutoff1) + StaleIds(u, cutoff2);
    assert StaleIds(t, cutoff1) !! StaleIds(u, cutoff2);
  }

  // A repeated sweep, or one with an earlier cutoff, finds nothing and changes nothing.
  lemma SweepAgainIsIdle(t: Tables, cutoff1: Time, now1: Time, cutoff2: Time, now2: Time)
    requires cutoff2 <= cutoff1
    ensures var u := SweepTables(t, cutoff1, now1);
      StaleIds(u, cutoff2) == {} && SweepTables(u, cutoff2, now2) == u
  {
    var u := SweepTables(t, cutoff1, now1);
    assert SweepTables(u, cutoff2, now2).pickups == u.pickups;
  }
}
