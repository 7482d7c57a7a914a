// Linearizability: every run of the interleaved system gives the tables and the
// answers of a serial run of the one-step specifications, in an order that
// respects which call returned before which was made.
module Linear {
  import opened Domain
  import opened Tables
  import opened Atomic
  import opened System
  import opened Invariants

  // One call taking effect at once, at action number `at` of the run.
  datatype Entry = Entry(client: ClientId, request: Request, now: Time, id: Id, result: Result, at: nat)

  // An answer the serial run may give here. A call may fail for want of
  // infrastructure. The check for pending payments comes before the insert of a new
  // pickup, not with it: Linearizes says where.
  ghost predicate EntryOk(cfg: Config, t: Tables, e: Entry) {
    if e.result.Failed?
      && (Infrastructure(e.result.error) || (e.request.Confirm? && e.result.error == StorageUnavailable))
    then true
    else if e.request.CreatePickup? && !e.result.Failed? then
      var row := NewPickup(e.id, e.request.householdId, e.request.kind, e.request.safetyCheck, e.now);
      InsertPickupError(t, row) == None && e.result == GotPickup(row)
    else e.result == Atomically(cfg, t, e.request, e.now, e.id).result
  }

  // What the serial run leaves behind: nothing if the call failed.
  ghost function Effect(cfg: Config, t: Tables, e: Entry): Tables {
    if e.result.Failed? then t
    else if e.request.CreatePickup? && e.result.GotPickup? then PutPickup(t, e.result.pickup)
    else Atomically(cfg, t, e.request, e.now, e.id).tables
  }

  ghost function Replay(cfg: Config, t: Tables, h: seq<Entry>): Tables {
    if h == [] then t else Effect(cfg, Replay(cfg, t, h[..|h| - 1]), h[|h| - 1])
  }

  ghost predicate Legal(cfg: Config, t: Tables, h: seq<Entry>) {
    h != [] ==>
      var front := h[..|h| - 1];
      Legal(cfg, t, front) && EntryOk(cfg, Replay(cfg, t, front), h[|h| - 1])
  }

  // ---------------------------------------------------------------- when a call takes effect

  // A call takes effect with its last step, except that a completion that loses
  // its guard is decided there and then: its second read does not look at the status.
  ghost predicate Decided(c: Client) {
    c.pc.Done? || (c.request.Complete? && c.pc.Reread?)
  }

  ghost function LostCompletion(t: Tables, id: Id): Result {
    Failed(if id in t.pickups then PickupNotScheduled else PickupNotFound)
  }

  ghost function Answer(t: Tables, c: Client): Result
    requires Decided(c)
  {
    if c.pc.Done? then c.pc.result else LostCompletion(t, c.request.id)
  }

  ghost predicate EntryFits(t: Tables, c: Client, e: Entry) {
    && Decided(c)
    && e.request == c.request && e.now == c.now
    && (c.pc.Done? && !e.result.Failed? ==> e.id == c.id)
    && e.result == Answer(t, c)
    && c.called < e.at
    && (c.pc.Done? ==> e.at <= c.pc.returned)
  }

  ghost predicate HasEntry(h: seq<Entry>, k: ClientId) {
    exists i :: 0 <= i < |h| && h[i].client == k
  }

  ghost predicate InOrder(h: seq<Entry>) {
    && (forall i, j :: 0 <= i < j < |h| ==> h[i].at < h[j].at)
    && (forall i, j :: 0 <= i < j < |h| ==> h[i].client != h[j].client)
  }

  // The entries are those of the decided calls, one each, in the order they took effect.
  ghost predicate Covers(s: System, h: seq<Entry>) {
    && InOrder(h)
    && (forall i :: 0 <= i < |h| ==>
          h[i].at < s.steps && h[i].client in s.clients && EntryFits(s.tables, s.clients[h[i].client], h[i]))
    && (forall k :: k in s.clients && Decided(s.clients[k]) ==> HasEntry(h, k))
  }

  // Creating call c of client k looked for pending payments, and found none, when the
  // first j calls had taken effect: after it was made and before it took effect itself.
  ghost predicate LookedAt(cfg: Config, t0: Tables, h: seq<Entry>, k: ClientId, c: Client, j: nat)
    requires c.request.CreatePickup?
  {
    && j <= |h|
    && !HasPending(Replay(cfg, t0, h[..j]), c.request.householdId)
    && (forall m :: 0 <= m < j ==> h[m].client != k)
    && (forall m :: j <= m < |h| ==> c.called < h[m].at)
  }

  ghost predicate AllLooked(cfg: Config, t0: Tables, s: System, h: seq<Entry>) {
    forall k :: k in s.clients && PastCheck(s.clients[k]) ==> exists j: nat :: LookedAt(cfg, t0, h, k, s.clients[k], j)
  }

  // History h accounts for everything that has happened between t0 and s.
  ghost predicate Explains(cfg: Config, t0: Tables, s: System, h: seq<Entry>) {
    Replay(cfg, t0, h) == s.tables && Legal(cfg, t0, h) && Covers(s, h) && AllLooked(cfg, t0, s, h)
  }

  // ---------------------------------------------------------------- a step of one client

  ghost function EntryOf(k: ClientId, t: Tables, c: Client, at: nat): Entry
    requires Decided(c)
  {
    Entry(k, c.request, c.now, c.id, Answer(t, c), at)
  }

  // The move either is the atomic execution of the call or leaves the tables alone.
  ghost predicate DecidesRight(cfg: Config, s: System, k: ClientId, m: Move) {
    if Decided(m.client)
    then EntryOk(cfg, s.tables, EntryOf(k, m.tables, m.client, s.steps))
      && Effect(cfg, s.tables, EntryOf(k, m.tables, m.client, s.steps)) == m.tables
    else m.tables == s.tables
  }

  lemma DecidingPickupStep(cfg: Config, s: System, k: ClientId, c: Client, draw: Id)
    requires Ready(cfg, s, c, draw) && !Decided(c)
    ensures c.request.CreatePickup? ==> DecidesRight(cfg, s, k, StepCreatePickup(s, c, draw))
    ensures c.request.CancelStaleOrganic? ==> DecidesRight(cfg, s, k, StepSweep(cfg, s, c))
  {
  }

  lemma DecidingUpdateStep(cfg: Config, s: System, k: ClientId, c: Client, draw: Id)
    requires Acting(cfg, s, c, draw) && !Decided(c)
    ensures c.request.Schedule? ==> DecidesRight(cfg, s, k, StepSchedule(s, c))
    ensures c.request.Cancel? ==> DecidesRight(cfg, s, k, StepCancel(s, c))
  {
  }

  lemma DecidingCompleteStep(cfg: Config, s: System, k: ClientId, c: Client, draw: Id)
    requires Acting(cfg, s, c, draw) && !Decided(c) && c.request.Complete?
    ensures DecidesRight(cfg, s, k, StepComplete(cfg, s, c, draw))
  {
  }

  lemma DecidingPaymentStep(cfg: Config, s: System, k: ClientId, c: Client, draw: Id)
    requires Acting(cfg, s, c, draw) && !Decided(c)
    ensures c.request.CreatePayment? ==> DecidesRight(cfg, s, k, StepCreatePayment(cfg, s, c, draw))
    ensures c.request.Confirm? ==> DecidesRight(cfg, s, k, StepConfirm(s, c, draw))
  {
  }

  lemma DecidingHouseholdStep(cfg: Config, s: System, k: ClientId, c: Client, draw: Id)
    requires Acting(cfg, s, c, draw) && !Decided(c)
    ensures c.request.CreateHousehold? ==> DecidesRight(cfg, s, k, StepCreateHousehold(s, c, draw))
    ensures c.request.DeleteHousehold? ==> DecidesRight(cfg, s, k, StepDeleteHousehold(s, c))
  {
  }

  // The step in which a call is decided is its atomic execution.
  lemma DecidingStep(cfg: Config, s: System, k: ClientId, c: Client, draw: Id, fault: Option<Error>)
    requires Ready(cfg, s, c, draw) && (fault.Some? ==> Infrastructure(fault.value))
    requires !Decided(c)
    ensures DecidesRight(cfg, s, k, Step(cfg, s, c, draw, fault))
  {
    DecidingPickupStep(cfg, s, k, c, draw);
    DecidingUpdateStep(cfg, s, k, c, draw);
    if c.request.Complete? {
      DecidingCompleteStep(cfg, s, k, c, draw);
    }
    DecidingPaymentStep(cfg, s, k, c, draw);
    DecidingHouseholdStep(cfg, s, k, c, draw);
  }

  // The re-read of a lost completion says what was true when the guard was lost.
  lemma LostCompletionReread(cfg: Config, s: System, c: Client, draw: Id, fault: Option<Error>)
    requires Acting(cfg, s, c, draw) && c.request.Complete? && c.pc.Reread?
    ensures var m := Step(cfg, s, c, draw, fault);
      && m.tables == s.tables
      && m.client.pc.Done? && m.client.now == c.now && m.client.request == c.request
      && m.client.pc.result ==
        if fault.Some? then Failed(fault.value) else LostCompletion(s.tables, c.request.id)
  {
  }

  // ---------------------------------------------------------------- growing the history

  // Other clients' entries still fit after a step.
  lemma OthersFit(cfg: Config, s: System, k: ClientId, j: ClientId, draw: Id, fault: Option<Error>, e: Entry)
    requires Inv(cfg, s) && Enabled(cfg, s, Go(k, draw, fault))
    requires j in s.clients && j != k && EntryFits(s.tables, s.clients[j], e)
    ensures EntryFits(Step(cfg, s, s.clients[k], draw, fault).tables, s.clients[j], e)
  {
    var c, d := s.clients[k], s.clients[j];
    if !d.pc.Done? {
      StepHarmless(cfg, s, c, d, draw, fault);
    }
  }

  lemma AllOthersFit(cfg: Config, s: System, k: ClientId, draw: Id, fault: Option<Error>, h: seq<Entry>)
    requires Inv(cfg, s) && Enabled(cfg, s, Go(k, draw, fault))
    ensures OthersStillFit(s, k, Step(cfg, s, s.clients[k], draw, fault), h)
  {
    forall i | 0 <= i < |h| && h[i].client != k && h[i].client in s.clients
      && EntryFits(s.tables, s.clients[h[i].client], h[i])
      ensures EntryFits(Step(cfg, s, s.clients[k], draw, fault).tables, s.clients[h[i].client], h[i])
    {
      OthersFit(cfg, s, k, h[i].client, draw, fault, h[i]);
    }
  }

  lemma HasEntryGrows(h: seq<Entry>, e: Entry)
    ensures forall k :: HasEntry(h, k) ==> HasEntry(h + [e], k)
    ensures HasEntry(h + [e], e.client)
  {
    forall k | HasEntry(h, k)
      ensures HasEntry(h + [e], k)
    {
      var i :| 0 <= i < |h| && h[i].client == k;
      assert (h + [e])[i].client == k;
    }
    assert (h + [e])[|h|] == e;
  }

  lemma ReplayAppend(cfg: Config, t: Tables, h: seq<Entry>, e: Entry)
    ensures Replay(cfg, t, h + [e]) == Effect(cfg, Replay(cfg, t, h), e)
    ensures Legal(cfg, t, h + [e]) <==> Legal(cfg, t, h) && EntryOk(cfg, Replay(cfg, t, h), e)
  {
    assert (h + [e])[..|h + [e]| - 1] == h;
  }

  lemma {:induction false} ReplaySkipsFailure(cfg: Config, t: Tables, h: seq<Entry>, i: nat, e: Entry)
    requires i < |h| && h[i].result.Failed? && e.result.Failed?
    ensures Replay(cfg, t, h[i := e]) == Replay(cfg, t, h)
  {
    var g := h[i := e];
    if i == |h| - 1 {
      assert g[..|g| - 1] == h[..|h| - 1];
    } else {
      ReplaySkipsFailure(cfg, t, h[..|h| - 1], i, e);
      assert g[..|g| - 1] == h[..|h| - 1][i := e];
    }
  }

  // A failed answer can be exchanged for an infrastructure failure anywhere in the past.
  lemma {:induction false} ReplaceFailure(cfg: Config, t: Tables, h: seq<Entry>, i: nat, e: Entry)
    requires i < |h| && h[i].result.Failed? && e.result.Failed? && Infrastructure(e.result.error)
    requires Legal(cfg, t, h)
    ensures Legal(cfg, t, h[i := e])
  {
    var g := h[i := e];
    if i == |h| - 1 {
      assert g[..|g| - 1] == h[..|h| - 1];
    } else {
      ReplaceFailure(cfg, t, h[..|h| - 1], i, e);
      ReplaySkipsFailure(cfg, t, h[..|h| - 1], i, e);
      assert g[..|g| - 1] == h[..|h| - 1][i := e];
    }
  }

  // State s' is s after client k made move m.
  ghost predicate Moved(s: System, k: ClientId, m: Move, s': System) {
    && k in s.clients
    && s'.tables == m.tables && s'.steps == s.steps + 1 && s'.clients == s.clients[k := m.client]
    && m.client.request == s.clients[k].request && m.client.called == s.clients[k].called < s.steps
    && (m.client.pc.Done? ==> m.client.pc.returned == s.steps)
  }

  ghost predicate OthersStillFit(s: System, k: ClientId, m: Move, h: seq<Entry>) {
    forall i :: 0 <= i < |h| && h[i].client != k && h[i].client in s.clients ==>
      (EntryFits(s.tables, s.clients[h[i].client], h[i]) ==> EntryFits(m.tables, s.clients[h[i].client], h[i]))
  }

  ghost function Appended(s: System, k: ClientId, m: Move, h: seq<Entry>): seq<Entry> {
    if Decided(m.client) then h + [EntryOf(k, m.tables, m.client, s.steps)] else h
  }

  // A call that was undecided appends its entry once it is decided.
  lemma AppendDecided(cfg: Config, t0: Tables, s: System, k: ClientId, m: Move, s': System, h: seq<Entry>)
      returns (h': seq<Entry>)
    requires Explains(cfg, t0, s, h) && Moved(s, k, m, s') && OthersStillFit(s, k, m, h)
    requires !Decided(s.clients[k]) && DecidesRight(cfg, s, k, m) && ChecksRight(s, k, m)
    requires forall l :: l in s.clients ==> s.clients[l].called < s.steps
    ensures Explains(cfg, t0, s', h')
  {
    h' := Appended(s, k, m, h);
    ReplaysAppend(cfg, t0, s, k, m, h, h');
    CoversAppend(s, k, m, s', h, h');
    NotEnteredYet(s, k, h);
    LookedAppend(cfg, t0, s, k, m, s', h, h');
  }

  lemma ReplaysAppend(cfg: Config, t0: Tables, s: System, k: ClientId, m: Move, h: seq<Entry>, h': seq<Entry>)
    requires Replay(cfg, t0, h) == s.tables && Legal(cfg, t0, h) && DecidesRight(cfg, s, k, m)
    requires h' == Appended(s, k, m, h)
    ensures Replay(cfg, t0, h') == m.tables && Legal(cfg, t0, h')
  {
    if Decided(m.client) {
      ReplayAppend(cfg, t0, h, EntryOf(k, m.tables, m.client, s.steps));
    }
  }

  // Only a look that finds nothing gets a call past its check.
  ghost predicate ChecksRight(s: System, k: ClientId, m: Move)
    requires k in s.clients
  {
    PastCheck(m.client) ==> PastCheck(s.clients[k]) || !HasPending(s.tables, m.client.request.householdId)
  }

  // Looking still counts when one more call has taken effect.
  lemma LookedStays(cfg: Config, t0: Tables, h: seq<Entry>, h': seq<Entry>, k: ClientId, c: Client, c': Client, j: nat)
    requires c.request.CreatePickup? && c'.request == c.request && c'.called == c.called
    requires LookedAt(cfg, t0, h, k, c, j)
    requires h' == h || (|h'| == |h| + 1 && h'[..|h|] == h && c.called < h'[|h|].at)
    ensures LookedAt(cfg, t0, h', k, c', j)
  {
    assert h'[..j] == h[..j];
    assert forall m :: 0 <= m < |h| ==> h'[m] == h[m];
  }

  lemma LookedNow(cfg: Config, t0: Tables, s: System, k: ClientId, m: Move, h: seq<Entry>, h': seq<Entry>)
    requires Replay(cfg, t0, h) == s.tables && m.client.request.CreatePickup?
    requires !HasPending(s.tables, m.client.request.householdId) && m.client.called < s.steps
    requires h' == Appended(s, k, m, h) && forall i :: 0 <= i < |h| ==> h[i].client != k
    ensures LookedAt(cfg, t0, h', k, m.client, |h|)
  {
    assert h'[..|h|] == h;
    assert forall i :: 0 <= i < |h| ==> h'[i] == h[i];
  }

  lemma LookedAppend(cfg: Config, t0: Tables, s: System, k: ClientId, m: Move, s': System,
                     h: seq<Entry>, h': seq<Entry>)
    requires AllLooked(cfg, t0, s, h) && Replay(cfg, t0, h) == s.tables
    requires Moved(s, k, m, s') && ChecksRight(s, k, m)
    requires forall l :: l in s.clients ==> s.clients[l].called < s.steps
    requires h' == Appended(s, k, m, h) && forall i :: 0 <= i < |h| ==> h[i].client != k
    ensures AllLooked(cfg, t0, s', h')
  {
    forall l | l in s'.clients && PastCheck(s'.clients[l])
      ensures exists j: nat :: LookedAt(cfg, t0, h', l, s'.clients[l], j)
    {
      if PastCheck(s.clients[l]) {
        var j: nat :| LookedAt(cfg, t0, h, l, s.clients[l], j);
        LookedStays(cfg, t0, h, h', l, s.clients[l], s'.clients[l], j);
      } else {
        LookedNow(cfg, t0, s, k, m, h, h');
      }
    }
  }

  lemma CoversAppend(s: System, k: ClientId, m: Move, s': System, h: seq<Entry>, h': seq<Entry>)
    requires Covers(s, h) && Moved(s, k, m, s') && OthersStillFit(s, k, m, h) && !Decided(s.clients[k])
    requires h' == Appended(s, k, m, h)
    ensures Covers(s', h')
  {
    NotEnteredYet(s, k, h);
    if Decided(m.client) {
      var e := EntryOf(k, m.tables, m.client, s.steps);
      HasEntryGrows(h, e);
      assert EntryFits(m.tables, m.client, e);
      InOrderAppend(s.steps, h, e);
      forall i | 0 <= i < |h + [e]|
        ensures (h + [e])[i].at < s'.steps && (h + [e])[i].client in s'.clients
        ensures EntryFits(s'.tables, s'.clients[(h + [e])[i].client], (h + [e])[i])
      {
        assert i < |h| ==> (h + [e])[i] == h[i];
      }
    }
  }

  // An undecided call has no entry.
  lemma NotEnteredYet(s: System, k: ClientId, h: seq<Entry>)
    requires Covers(s, h) && k in s.clients && !Decided(s.clients[k])
    ensures forall i :: 0 <= i < |h| ==> h[i].client != k
  {
  }

  lemma InOrderAppend(steps: nat, h: seq<Entry>, e: Entry)
    requires InOrder(h) && e.at == steps
    requires forall i :: 0 <= i < |h| ==> h[i].at < steps && h[i].client != e.client
    ensures InOrder(h + [e])
  {
    var g := h + [e];
    assert forall i :: 0 <= i < |g| ==> g[i] == if i < |h| then h[i] else e;
  }

  // A lost completion was entered when it lost; only an infrastructure failure revises that.
  lemma ReviseLost(cfg: Config, t0: Tables, s: System, k: ClientId, m: Move, s': System, h: seq<Entry>)
      returns (h': seq<Entry>)
    requires Explains(cfg, t0, s, h) && Moved(s, k, m, s') && OthersStillFit(s, k, m, h)
    requires Decided(s.clients[k]) && !s.clients[k].pc.Done? && s.clients[k].request.Complete?
    requires m.tables == s.tables && m.client.pc.Done? && m.client.now == s.clients[k].now && m.client.pc.result.Failed?
    requires m.client.pc.result == Answer(s.tables, s.clients[k]) || Infrastructure(m.client.pc.result.error)
    ensures Explains(cfg, t0, s', h')
  {
    assert HasEntry(h, k);
    var i :| 0 <= i < |h| && h[i].client == k;
    var e := h[i].(result := m.client.pc.result);
    h' := h[i := e];
    CoversRevise(s, k, m, s', h, i);
    LookedRevise(cfg, t0, s, k, m, s', h, i, h');
    ReplaySkipsFailure(cfg, t0, h, i, e);
    if m.client.pc.result == Answer(s.tables, s.clients[k]) {
      assert h' == h;
    } else {
      ReplaceFailure(cfg, t0, h, i, e);
    }
  }

  lemma LookedRevise(cfg: Config, t0: Tables, s: System, k: ClientId, m: Move, s': System,
                     h: seq<Entry>, i: nat, h': seq<Entry>)
    requires AllLooked(cfg, t0, s, h) && Moved(s, k, m, s') && s.clients[k].request.Complete?
    requires i < |h| && |h'| == |h| && h' == h[i := h'[i]]
    requires h[i].result.Failed? && h'[i].result.Failed? && h'[i].client == h[i].client && h'[i].at == h[i].at
    ensures AllLooked(cfg, t0, s', h')
  {
    forall l | l in s'.clients && PastCheck(s'.clients[l])
      ensures exists j: nat :: LookedAt(cfg, t0, h', l, s'.clients[l], j)
    {
      var j: nat :| LookedAt(cfg, t0, h, l, s.clients[l], j);
      if i < j {
        ReplaySkipsFailure(cfg, t0, h[..j], i, h'[i]);
        assert h'[..j] == h[..j][i := h'[i]];
      } else {
        assert h'[..j] == h[..j];
      }
      assert LookedAt(cfg, t0, h', l, s'.clients[l], j);
    }
  }

  lemma CoversRevise(s: System, k: ClientId, m: Move, s': System, h: seq<Entry>, i: nat)
    requires Covers(s, h) && Moved(s, k, m, s') && OthersStillFit(s, k, m, h)
    requires i < |h| && h[i].client == k && m.client.pc.Done? && m.client.now == s.clients[k].now
    requires m.client.pc.result.Failed?
    ensures Covers(s', h[i := h[i].(result := m.client.pc.result)])
  {
    var h' := h[i := h[i].(result := m.client.pc.result)];
    forall l | l in s'.clients && Decided(s'.clients[l])
      ensures HasEntry(h', l)
    {
      assert HasEntry(h, l);
      var j :| 0 <= j < |h| && h[j].client == l;
      assert h'[j].client == l;
    }
  }

  lemma StepChecks(cfg: Config, s: System, k: ClientId, draw: Id, fault: Option<Error>)
    requires k in s.clients
    ensures ChecksRight(s, k, Step(cfg, s, s.clients[k], draw, fault))
  {
  }

  lemma Extend(cfg: Config, t0: Tables, s: System, a: Action, h: seq<Entry>) returns (h': seq<Entry>)
    requires Inv(cfg, s) && Enabled(cfg, s, a) && Explains(cfg, t0, s, h)
    ensures Explains(cfg, t0, Next(cfg, s, a), h')
  {
    if !a.Go? {
      h' := h;
    } else {
      var k, s' := a.client, Next(cfg, s, a);
      var c, m := s.clients[k], Step(cfg, s, s.clients[k], a.draw, a.fault);
      StepMoveOk(cfg, s, c, a.draw, a.fault);
      AllOthersFit(cfg, s, k, a.draw, a.fault, h);
      if Decided(c) {
        LostCompletionReread(cfg, s, c, a.draw, a.fault);
        h' := ReviseLost(cfg, t0, s, k, m, s', h);
      } else {
        DecidingStep(cfg, s, k, c, a.draw, a.fault);
        StepChecks(cfg, s, k, a.draw, a.fault);
        h' := AppendDecided(cfg, t0, s, k, m, s', h);
      }
    }
  }

  lemma {:induction false} Explained(cfg: Config, s: System, run: seq<Action>) returns (h: seq<Entry>)
    requires Initial(s) && IsRun(cfg, s, run)
    ensures Explains(cfg, s.tables, After(cfg, s, run), h)
  {
    if run == [] {
      h := [];
    } else {
      var front := run[..|run| - 1];
      h := Explained(cfg, s, front);
      InitialInv(cfg, s);
      RunKeepsInv(cfg, s, front);
      h := Extend(cfg, s.tables, After(cfg, s, front), run[|run| - 1], h);
    }
  }

  // ---------------------------------------------------------------- the theorem

  // Call d was made after call c had returned.
  ghost predicate Precedes(c: Client, d: Client) {
    c.pc.Done? && c.pc.returned < d.called
  }

  ghost predicate CheckedBefore(cfg: Config, t0: Tables, s: System, h: seq<Entry>, i: nat, j: nat)
    requires i < |h| && h[i].request.CreatePickup? && forall m :: 0 <= m < |h| ==> h[m].client in s.clients
  {
    && j <= i
    && !HasPending(Replay(cfg, t0, h[..j]), h[i].request.householdId)
    && forall m :: j <= m < i ==> !Precedes(s.clients[h[m].client], s.clients[h[i].client])
  }

  // The serial run h explains what the interleaved run from t0 to s did.
  ghost predicate Linearizes(cfg: Config, t0: Tables, s: System, h: seq<Entry>) {
    // It is a run of the one-step specifications, and it ends in the same tables.
    && Legal(cfg, t0, h)
    && Replay(cfg, t0, h) == s.tables
    // Every call that returned is in it, no call twice, each with its own request and answer.
    && (forall k :: k in s.clients && s.clients[k].pc.Done? ==> HasEntry(h, k))
    && (forall i, j :: 0 <= i < j < |h| ==> h[i].client != h[j].client)
    && (forall i :: 0 <= i < |h| ==>
          && h[i].client in s.clients
          && h[i].request == s.clients[h[i].client].request
          && h[i].now == s.clients[h[i].client].now
          && (!h[i].result.Failed? ==> h[i].id == s.clients[h[i].client].id)
          && (s.clients[h[i].client].pc.Done? ==> h[i].result == s.clients[h[i].client].pc.result)
          && (!s.clients[h[i].client].pc.Done? ==> h[i].result.Failed?))
    // A created pickup's household had nothing pending at some point before, and only
    // calls that overlapped with the creating one came in between.
    && (forall i :: 0 <= i < |h| && h[i].request.CreatePickup? && !h[i].result.Failed? ==>
          exists j: nat :: CheckedBefore(cfg, t0, s, h, i, j))
    // It keeps the order of calls that did not overlap.
    && (forall i, j :: 0 <= i < |h| && 0 <= j < |h| ==>
          (Precedes(s.clients[h[i].client], s.clients[h[j].client]) ==> i < j))
  }

  lemma Linearizable(cfg: Config, s: System, run: seq<Action>)
    requires Initial(s) && IsRun(cfg, s, run)
    ensures exists h :: Linearizes(cfg, s.tables, After(cfg, s, run), h)
  {
    var h := Explained(cfg, s, run);
    ExplainsLinearizes(cfg, s.tables, After(cfg, s, run), h);
  }

  lemma ExplainsLinearizes(cfg: Config, t0: Tables, s: System, h: seq<Entry>)
    requires Explains(cfg, t0, s, h)
    ensures Linearizes(cfg, t0, s, h)
  {
    forall i | 0 <= i < |h| && h[i].request.CreatePickup? && !h[i].result.Failed?
      ensures exists j: nat :: CheckedBefore(cfg, t0, s, h, i, j)
    {
      CreationWasChecked(cfg, t0, s, h, i);
    }
    forall i, j | 0 <= i < |h| && 0 <= j < |h| && Precedes(s.clients[h[i].client], s.clients[h[j].client])
      ensures i < j
    {
      assert h[i].at < h[j].at;
    }
  }

  lemma {:induction false} LegalEntry(cfg: Config, t: Tables, h: seq<Entry>, i: nat)
    requires Legal(cfg, t, h) && i < |h|
    ensures EntryOk(cfg, Replay(cfg, t, h[..i]), h[i])
  {
    var front := h[..|h| - 1];
    if i < |h| - 1 {
      LegalEntry(cfg, t, front, i);
      assert front[..i] == h[..i];
    }
  }

  lemma CreationWasChecked(cfg: Config, t0: Tables, s: System, h: seq<Entry>, i: nat)
    requires Explains(cfg, t0, s, h)
    requires i < |h| && h[i].request.CreatePickup? && !h[i].result.Failed?
    ensures exists j: nat :: CheckedBefore(cfg, t0, s, h, i, j)
  {
    LegalEntry(cfg, t0, h, i);
    var k := h[i].client;
    assert PastCheck(s.clients[k]);
    var j: nat :| LookedAt(cfg, t0, h, k, s.clients[k], j);
    assert CheckedBefore(cfg, t0, s, h, i, j);
  }
}
