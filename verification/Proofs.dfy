// Confirming a payment under races: one winner, its own object on the row, and
// every stored object accounted for.
module Proofs {
  import opened Domain
  import opened Tables
  import opened System
  import opened Invariants

  ghost predicate WonConfirm(c: Client, paymentId: Id) {
    c.request.Confirm? && c.request.id == paymentId && c.pc.Done? && c.pc.result.GotPayment?
  }

  ghost predicate LostConfirm(c: Client) {
    c.request.Confirm? && c.pc.Done? && c.pc.result.Failed?
  }

  // What a successful confirmation answered is what the row says, now and for ever.
  ghost predicate WinnerOk(t: Tables, c: Client) {
    c.request.Confirm? && c.pc.Done? && !c.pc.result.Failed? ==>
      && c.pc.result.GotPayment?
      && c.request.id in t.payments
      && t.payments[c.request.id] == c.pc.result.payment
      && c.pc.result.payment.status == PaymentPaid
      && c.pc.result.payment.paymentDate == Some(c.now)
      && c.pc.result.payment.updatedAt == c.now
      && c.upload.Some?
      && c.pc.result.payment.proofFileURL == c.upload
  }

  ghost predicate HasWinner(cs: map<ClientId, Client>, b: Id) {
    exists k :: k in cs && WonConfirm(cs[k], b)
  }

  ghost predicate UploadedBy(cs: map<ClientId, Client>, key: ObjectKey, k: ClientId) {
    k in cs && cs[k].upload == Some(key)
  }

  ghost predicate ProofsOk(s: System) {
    && (forall k :: k in s.clients ==> WinnerOk(s.tables, s.clients[k]))
    && (forall b :: b in s.tables.payments && s.tables.payments[b].status == PaymentPaid ==> HasWinner(s.clients, b))
    && (forall k :: k in s.clients && s.clients[k].upload.Some? ==> s.clients[k].upload.value in s.objects)
    && (forall key :: key in s.objects ==> exists k :: UploadedBy(s.clients, key, k))
  }

  // ---------------------------------------------------------------- a step of one client

  // Only a confirmation turns a payment paid, and only that client's own object gets stored.
  ghost predicate PaysRight(s: System, c: Client, m: Move) {
    && (forall b :: b in m.tables.payments && m.tables.payments[b].status == PaymentPaid ==>
          (b in s.tables.payments && m.tables.payments[b] == s.tables.payments[b]) || WonConfirm(m.client, b))
    && (forall b :: b in s.tables.payments && s.tables.payments[b].status == PaymentPaid ==>
          b in m.tables.payments && m.tables.payments[b] == s.tables.payments[b])
    && WinnerOk(m.tables, m.client)
    && if m.client.upload == c.upload then m.objects == s.objects
       else c.upload == None && m.client.upload.Some? && m.objects == s.objects + {m.client.upload.value}
  }

  ghost predicate PaymentsUntouched(s: System, c: Client, m: Move) {
    m.tables.payments == s.tables.payments && m.objects == s.objects && m.client.upload == c.upload
  }

  lemma OthersPayRight(cfg: Config, s: System, c: Client, draw: Id)
    ensures c.request.CreatePickup? ==> PaymentsUntouched(s, c, StepCreatePickup(s, c, draw))
    ensures c.request.Schedule? ==> PaymentsUntouched(s, c, StepSchedule(s, c))
    ensures c.request.Cancel? ==> PaymentsUntouched(s, c, StepCancel(s, c))
    ensures c.request.CancelStaleOrganic? ==> PaymentsUntouched(s, c, StepSweep(cfg, s, c))
    ensures c.request.CreateHousehold? ==> PaymentsUntouched(s, c, StepCreateHousehold(s, c, draw))
    ensures c.request.DeleteHousehold? ==> PaymentsUntouched(s, c, StepDeleteHousehold(s, c))
  {
  }

  ghost predicate AddsPending(s: System, c: Client, m: Move) {
    && m.objects == s.objects && m.client.upload == c.upload
    && (forall b :: b in s.tables.payments ==> b in m.tables.payments && m.tables.payments[b] == s.tables.payments[b])
    && (forall b :: b in m.tables.payments && b !in s.tables.payments ==> m.tables.payments[b].status == PaymentPending)
  }

  lemma CompletionAddsPending(cfg: Config, s: System, c: Client, draw: Id)
    requires Acting(cfg, s, c, draw) && c.request.Complete?
    ensures AddsPending(s, c, StepComplete(cfg, s, c, draw))
  {
  }

  lemma BillingAddsPending(cfg: Config, s: System, c: Client, draw: Id)
    requires Acting(cfg, s, c, draw) && c.request.CreatePayment?
    ensures AddsPending(s, c, StepCreatePayment(cfg, s, c, draw))
  {
  }

  lemma ConfirmPaysRight(cfg: Config, s: System, c: Client, draw: Id)
    requires Acting(cfg, s, c, draw) && c.request.Confirm?
    ensures PaysRight(s, c, StepConfirm(s, c, draw))
  {
    if c.pc.TryUpdate? {
      assert c.request.id in s.tables.payments && s.tables.payments[c.request.id].id == c.request.id;
    }
  }

  lemma StepPaysRight(cfg: Config, s: System, c: Client, draw: Id, fault: Option<Error>)
    requires Acting(cfg, s, c, draw)
    ensures PaysRight(s, c, Step(cfg, s, c, draw, fault))
  {
    OthersPayRight(cfg, s, c, draw);
    if c.request.Complete? {
      CompletionAddsPending(cfg, s, c, draw);
    } else if c.request.CreatePayment? {
      BillingAddsPending(cfg, s, c, draw);
    } else if c.request.Confirm? {
      ConfirmPaysRight(cfg, s, c, draw);
    }
  }

  lemma MoveKeepsProofs(s: System, k: ClientId, m: Move, s': System)
    requires ProofsOk(s) && k in s.clients && PaysRight(s, s.clients[k], m)
    requires !s.clients[k].pc.Done?
    requires s'.tables == m.tables && s'.objects == m.objects && s'.clients == s.clients[k := m.client]
    ensures ProofsOk(s')
  {
    forall b | b in s'.tables.payments && s'.tables.payments[b].status == PaymentPaid
      ensures HasWinner(s'.clients, b)
    {
      if WonConfirm(m.client, b) {
        assert WonConfirm(s'.clients[k], b);
      } else {
        assert HasWinner(s.clients, b);
        var l :| l in s.clients && WonConfirm(s.clients[l], b);
        assert WonConfirm(s'.clients[l], b);
      }
    }
    forall key | key in s'.objects
      ensures exists l :: UploadedBy(s'.clients, key, l)
    {
      if key in s.objects {
        var l :| UploadedBy(s.clients, key, l);
        assert UploadedBy(s'.clients, key, l);
      } else {
        assert UploadedBy(s'.clients, key, k);
      }
    }
  }

  lemma NextKeepsProofs(cfg: Config, s: System, a: Action)
    requires Inv(cfg, s) && ProofsOk(s) && Enabled(cfg, s, a)
    ensures ProofsOk(Next(cfg, s, a))
  {
    var s' := Next(cfg, s, a);
    match a {
      case Tick(_) =>
      case Call(k, _) => CallKeepsProofs(s, k, s');
      case Go(k, draw, fault) =>
        StepPaysRight(cfg, s, s.clients[k], draw, fault);
        MoveKeepsProofs(s, k, Step(cfg, s, s.clients[k], draw, fault), s');
    }
  }

  lemma CallKeepsProofs(s: System, k: ClientId, s': System)
    requires ProofsOk(s) && k !in s.clients && s'.tables == s.tables && s'.objects == s.objects
    requires k in s'.clients && s'.clients == s.clients[k := s'.clients[k]]
    requires s'.clients[k].pc.Called? && s'.clients[k].upload.None?
    ensures ProofsOk(s')
  {
    forall b | HasWinner(s.clients, b)
      ensures HasWinner(s'.clients, b)
    {
      var l :| l in s.clients && WonConfirm(s.clients[l], b);
      assert WonConfirm(s'.clients[l], b);
    }
    forall key | key in s.objects
      ensures exists l :: UploadedBy(s'.clients, key, l)
    {
      var l :| UploadedBy(s.clients, key, l);
      assert UploadedBy(s'.clients, key, l);
    }
  }

  lemma {:induction false} RunKeepsProofs(cfg: Config, s: System, run: seq<Action>)
    requires Initial(s) && IsRun(cfg, s, run)
    ensures Inv(cfg, After(cfg, s, run)) && ProofsOk(After(cfg, s, run))
  {
    if run == [] {
      InitialInv(cfg, s);
    } else {
      var front := run[..|run| - 1];
      RunKeepsProofs(cfg, s, front);
      NextKeepsInv(cfg, After(cfg, s, front), run[|run| - 1]);
      NextKeepsProofs(cfg, After(cfg, s, front), run[|run| - 1]);
    }
  }

  lemma ReachableProofs(cfg: Config, s: System)
    requires Reachable(cfg, s)
    ensures Inv(cfg, s) && ProofsOk(s)
  {
    var s0, run :| Leads(cfg, s0, run, s);
    RunKeepsProofs(cfg, s0, run);
  }

  // ---------------------------------------------------------------- theorems

  ghost function Referenced(s: System): set<ObjectKey> {
    set b | b in s.tables.payments && s.tables.payments[b].proofFileURL.Some? :: s.tables.payments[b].proofFileURL.value
  }

  // Uploaded by a call that then lost the race or failed.
  ghost function Orphaned(s: System): set<ObjectKey> {
    set k | k in s.clients && LostConfirm(s.clients[k]) && s.clients[k].upload.Some? :: s.clients[k].upload.value
  }

  // Uploaded by a call still before its update.
  ghost function Held(s: System): set<ObjectKey> {
    set k | k in s.clients && !s.clients[k].pc.Done? && s.clients[k].upload.Some? :: s.clients[k].upload.value
  }

  // A UUID suffix belongs to one call, so an object does too.
  lemma OneUploader(cfg: Config, s: System, key: ObjectKey, k: ClientId, l: ClientId)
    requires Inv(cfg, s) && UploadedBy(s.clients, key, k) && UploadedBy(s.clients, key, l)
    ensures k == l && s.clients[k].request.Confirm? && s.clients[k].request.id == key.paymentId
  {
    assert ClientOk(cfg, s, s.clients[k]) && ClientOk(cfg, s, s.clients[l]);
    assert k != l ==> Apart(s.clients[k], s.clients[l]);
  }

  // However many confirmations of a payment race, at most one succeeds.
  lemma OneWinner(cfg: Config, s: System, b: Id, k: ClientId, l: ClientId)
    requires Reachable(cfg, s)
    requires k in s.clients && l in s.clients && WonConfirm(s.clients[k], b) && WonConfirm(s.clients[l], b)
    ensures k == l
  {
    ReachableProofs(cfg, s);
    assert WinnerOk(s.tables, s.clients[k]) && WinnerOk(s.tables, s.clients[l]);
    OneUploader(cfg, s, s.clients[k].upload.value, k, l);
  }

  // What the confirmation answered stands on the row, with its own object.
  ghost predicate WonRight(s: System, c: Client, b: Id) {
    && WonConfirm(c, b)
    && b in s.tables.payments
    && s.tables.payments[b].status == PaymentPaid
    && s.tables.payments[b].paymentDate == Some(c.now)
    && s.tables.payments[b].updatedAt == c.now
    && c.pc.result.payment == s.tables.payments[b]
    && c.upload.Some?
    && s.tables.payments[b].proofFileURL == c.upload
    && c.upload.value.paymentId == b
    && c.upload.value in s.objects
  }

  lemma WinnerStandsOnRow(cfg: Config, s: System, b: Id, k: ClientId)
    requires Inv(cfg, s) && ProofsOk(s) && k in s.clients && WonConfirm(s.clients[k], b)
    ensures WonRight(s, s.clients[k], b)
  {
    assert ClientOk(cfg, s, s.clients[k]) && WinnerOk(s.tables, s.clients[k]);
  }

  // A payment is paid exactly if some confirmation succeeded; its URL names that
  // call's own object, which is in storage under the payment's own prefix.
  lemma PaidByItsWinner(cfg: Config, s: System, b: Id)
    requires Reachable(cfg, s)
    ensures HasWinner(s.clients, b) <==> b in s.tables.payments && s.tables.payments[b].status == PaymentPaid
    ensures forall k :: k in s.clients && WonConfirm(s.clients[k], b) ==> WonRight(s, s.clients[k], b)
  {
    ReachableProofs(cfg, s);
    forall k | k in s.clients && WonConfirm(s.clients[k], b)
      ensures WonRight(s, s.clients[k], b)
    {
      WinnerStandsOnRow(cfg, s, b, k);
    }
  }

  // Every stored object is on a paid row, left by a lost or failed call, or held
  // by a call still before its update, and only one of these.
  lemma ObjectsAccountedFor(cfg: Config, s: System)
    requires Reachable(cfg, s)
    ensures s.objects == Referenced(s) + Orphaned(s) + Held(s)
    ensures Referenced(s) !! Orphaned(s) !! Held(s)
  {
    ReachableProofs(cfg, s);
    forall key | key in Referenced(s)
      ensures exists k :: UploadedBy(s.clients, key, k) && WonConfirm(s.clients[k], key.paymentId)
    {
      ReferencedByWinner(cfg, s, key);
    }
    forall key | key in s.objects
      ensures key in Referenced(s) + Orphaned(s) + Held(s)
    {
      ObjectHasPlace(cfg, s, key);
    }
    forall k, l, key | UploadedBy(s.clients, key, k) && UploadedBy(s.clients, key, l)
      ensures k == l
    {
      OneUploader(cfg, s, key, k, l);
    }
    forall key | key in Orphaned(s)
      ensures exists k :: UploadedBy(s.clients, key, k) && LostConfirm(s.clients[k])
    {
    }
    forall key | key in Held(s)
      ensures exists k :: UploadedBy(s.clients, key, k) && !s.clients[k].pc.Done?
    {
    }
  }

  lemma ReferencedByWinner(cfg: Config, s: System, key: ObjectKey)
    requires Inv(cfg, s) && ProofsOk(s) && key in Referenced(s)
    ensures exists k :: UploadedBy(s.clients, key, k) && WonConfirm(s.clients[k], key.paymentId)
  {
    var b :| b in s.tables.payments && s.tables.payments[b].proofFileURL == Some(key);
    assert BillOk(cfg.pricing, s.tables, s.tables.payments[b]);
    assert HasWinner(s.clients, b);
    var k :| k in s.clients && WonConfirm(s.clients[k], b);
    assert WinnerOk(s.tables, s.clients[k]) && UploadedBy(s.clients, key, k);
  }

  lemma ObjectHasPlace(cfg: Config, s: System, key: ObjectKey)
    requires Inv(cfg, s) && ProofsOk(s) && key in s.objects
    ensures key in Referenced(s) + Orphaned(s) + Held(s)
  {
    var k :| UploadedBy(s.clients, key, k);
    assert WinnerOk(s.tables, s.clients[k]) && ClientOk(cfg, s, s.clients[k]);
  }
}
